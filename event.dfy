/**
  The event helpers of the event service (app/Services/Event.php): building
  namespaced event keys, deciding which keys belong to this application, and
  storing text events through the event repository.
 */
module Event {
  import opened Wrappers

  /** The namespace that marks an event key as created by this application. */
  const Prefix: string := "XN_EVENT_"

  /** `needle` occurs in `hay` starting at index `i`. */
  predicate OccursAt(needle: string, hay: string, i: int)
  {
    0 <= i && i + |needle| <= |hay| && hay[i..i + |needle|] == needle
  }

  /** The intended ownership test: the key starts with the namespace. */
  predicate HasEventPrefix(name: string)
  {
    OccursAt(Prefix, name, 0)
  }

  /** First index at or after `from` where `needle` occurs in `hay`. */
  function FindFrom(hay: string, needle: string, from: nat): (r: Option<nat>)
    ensures r.Some? ==> from <= r.value && OccursAt(needle, hay, r.value)
    ensures r.Some? ==> forall j :: from <= j < r.value ==> !OccursAt(needle, hay, j)
    ensures r.None? ==> forall j :: from <= j ==> !OccursAt(needle, hay, j)
    decreases |hay| - from
  {
    if from + |needle| > |hay| then None
    else if hay[from..from + |needle|] == needle then Some(from)
    else FindFrom(hay, needle, from + 1)
  }

  /**
    PHP's `strpos(hay, needle)`: the first occurrence, or `false` (None).
    PHP before version 8 answers `false` with a warning for an empty needle;
    that case is excluded here, and the only needle used is the namespace.
   */
  function StrPos(hay: string, needle: string): (r: Option<nat>)
    requires needle != []
    ensures r.Some? <==> exists i :: OccursAt(needle, hay, i)
    ensures r.Some? ==> OccursAt(needle, hay, r.value)
    ensures r.Some? ==> forall j :: 0 <= j < r.value ==> !OccursAt(needle, hay, j)
  {
    FindFrom(hay, needle, 0)
  }

  /**
    `isOwnEvent` as written: it returns the result of `strpos`, and PHP reads
    the integer 0 as false.  So a name counts as owned exactly when the
    namespace occurs in it, but not at its very start.
   */
  function IsOwnEvent(name: string): (owned: bool)
    ensures owned <==> !OccursAt(Prefix, name, 0) && exists i :: 0 < i && OccursAt(Prefix, name, i)
  {
    match StrPos(name, Prefix)
    case None => false
    case Some(i) => i != 0
  }

  /** PHP's `strtoupper` on one character in the "C" locale: ASCII letters only. */
  function UpperChar(c: char): (u: char)
    ensures !('a' <= u <= 'z')
    ensures 'a' <= c <= 'z' ==> u as int == c as int - 32
    ensures !('a' <= c <= 'z') ==> u == c
  {
    if 'a' <= c <= 'z' then (c as int - 32) as char else c
  }

  /** PHP's `strtoupper` in the "C" locale. */
  function Upper(s: string): (r: string)
    ensures |r| == |s|
    ensures forall i :: 0 <= i < |s| ==> r[i] == UpperChar(s[i])
  {
    if s == [] then [] else [UpperChar(s[0])] + Upper(s[1..])
  }

  /**
    `buildEventKey`: the namespace followed by the upper-cased unique suffix.
    The suffix comes from `uniqid()`, a clock-derived value, and is a
    parameter here.
   */
  function BuildEventKey(uniq: string): (key: string)
    ensures |key| == |Prefix| + |uniq|
    ensures HasEventPrefix(key)
    ensures forall i :: 0 <= i < |uniq| ==> key[|Prefix| + i] == UpperChar(uniq[i])
    ensures forall i :: |Prefix| <= i < |key| ==> !('a' <= key[i] <= 'z')
  {
    Prefix + Upper(uniq)
  }

  /**
    Every key this service builds is found by `strpos` at index 0, so
    `isOwnEvent` rejects it: the ownership test never recognises the keys
    the application itself creates.
   */
  lemma BuiltKeyNotOwned(uniq: string)
    ensures StrPos(BuildEventKey(uniq), Prefix) == Some(0)
    ensures !IsOwnEvent(BuildEventKey(uniq))
    ensures HasEventPrefix(BuildEventKey(uniq))
  {
    var key := BuildEventKey(uniq);
    assert OccursAt(Prefix, key, 0);
  }

  /** The written test and the intended one never agree on a positive answer. */
  lemma OwnedKeysLackPrefix(name: string)
    ensures IsOwnEvent(name) ==> !HasEventPrefix(name)
  {
  }

  /**
    A name holding the namespace somewhere after a non-empty head that does
    not itself start with the namespace is owned.
   */
  lemma OwnedWhenPrefixLater(head: string, tail: string)
    requires head != []
    requires !HasEventPrefix(head + Prefix + tail)
    ensures IsOwnEvent(head + Prefix + tail)
  {
    var name := head + Prefix + tail;
    assert name[|head|..|head| + |Prefix|] == Prefix;
    assert OccursAt(Prefix, name, |head|);
  }

  /**
    The match is case-sensitive: a name without upper-case ASCII letters,
    such as one spelled `xn_event_...`, is never owned.
   */
  lemma NoUpperCaseNeverOwned(name: string)
    requires forall i :: 0 <= i < |name| ==> !('A' <= name[i] <= 'Z')
    ensures !IsOwnEvent(name)
  {
    forall i | 0 <= i && i + |Prefix| <= |name|
      ensures !OccursAt(Prefix, name, i)
    {
      assert name[i..i + |Prefix|][0] == name[i] != Prefix[0];
    }
  }

  /**
    A lower-cased namespace does not make a key owned: `xn_event_` followed
    by any suffix that does not itself hold the namespace is rejected, even
    when the suffix is upper-cased.
   */
  lemma LowerCaseNamespaceNotOwned(suffix: string)
    requires forall i :: !OccursAt(Prefix, suffix, i)
    ensures !IsOwnEvent("xn_event_" + suffix)
  {
    LowerCaseNamespaceAbsent(suffix);
  }

  /** The namespace occurs nowhere in `xn_event_` followed by a suffix that lacks it. */
  lemma LowerCaseNamespaceAbsent(suffix: string)
    requires forall i :: !OccursAt(Prefix, suffix, i)
    ensures forall i :: !OccursAt(Prefix, "xn_event_" + suffix, i)
  {
    var head := "xn_event_";
    var name := head + suffix;
    forall i | 0 <= i && i + |Prefix| <= |name|
      ensures !OccursAt(Prefix, name, i)
    {
      if i < |head| {
        assert name[i..i + |Prefix|][0] == head[i] != Prefix[0];
      } else {
        assert name[i..i + |Prefix|] == suffix[i - |head|..i - |head| + |Prefix|];
        assert !OccursAt(Prefix, suffix, i - |head|);
      }
    }
  }

  /**
    `buildText`: the event id is whatever the event repository's `storeText`
    returns for the text, untouched.  The repository is a parameter.
   */
  function BuildText(storeText: string -> string, text: string): (id: string)
    ensures id == storeText(text)
  {
    storeText(text)
  }
}
