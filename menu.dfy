/**
  The menu translation engine of the menu service (app/Services/Menu.php).

  Pull direction: the platform's button list is walked, every leaf is sent to
  the resolver its `type` names, and the resolvers either rewrite the leaf or
  drop it; a compaction pass then removes the dropped entries.
  Push direction: the local tree is reshaped into (name, type, key) items.
  Editor input is turned into event-backed nodes, and the stored menu of an
  account is torn down together with the click events it references.

  A button is a PHP associative array; here it is a map from field names to
  values.  The platform's menu is two levels deep: top-level buttons, some of
  which carry a list of sub-buttons.
 */
module Menu {
  import opened Wrappers
  import Event

  type AccountId = nat
  type MaterialId = nat

  /** One entry of a `news_info.list`: an article as field/value pairs. */
  type Article = map<string, string>

  /** A field value: a string, or the article list of a `news_info` field. */
  datatype Value = Str(s: string) | Articles(list: seq<Article>)

  /** The fields of one button, by name. */
  type Fields = map<string, Value>

  /**
    A top-level button: either a parent that carries a list of sub-buttons
    (`sub_button.list` on the platform side, `sub_button` locally) or a leaf.
    A parent's other fields are kept in `attrs`.
   */
  datatype MenuNode = Parent(attrs: Fields, sub: seq<Fields>) | Leaf(attrs: Fields)

  /**
    A top-level button after per-leaf resolution and before compaction: the
    children of a parent are resolved leaves or dropped entries (None stands
    for the resolvers' `false`).
   */
  datatype Analysed = AnalysedParent(attrs: Fields, sub: seq<Option<Fields>>) | AnalysedLeaf(attrs: Fields)

  /**
    Failures.  Reading a missing array index, or using an array where a
    string is needed, raises under the framework's error handler; calling a
    resolver that does not exist does too.
   */
  datatype Error = MissingField(field: string) | WrongShape(field: string) | NoResolver(typeName: string)

  datatype Result<T> = Ok(value: T) | Err(error: Error)

  /**
    The collaborators the engine calls.  The material service stores content;
    the event service turns stored content into an event key.  The event
    service's `makeMediaId` and `makeText` are not defined in
    app/Services/Event.php; they are taken here as functions that return a
    string key.  `makeMediaId` is called with one argument by the resolvers
    and with two by the editor translation, so the two uses are kept apart.
   */
  datatype Services = Services(
    saveText: (AccountId, Value) -> MaterialId,
    saveArticle: (AccountId, seq<Article>) -> MaterialId,
    makeMediaId: MaterialId -> string,
    makeMediaEvent: (AccountId, Value) -> string,
    makeText: (AccountId, Value) -> string)

  /**
    `array_map` with a callback that may raise: the callback runs on each
    element from left to right, and the first failure ends the whole map.
   */
  function MapResult<A, B>(f: A -> Result<B>, s: seq<A>): (r: Result<seq<B>>)
    ensures r.Ok? <==> forall i :: 0 <= i < |s| ==> f(s[i]).Ok?
    ensures r.Ok? ==> |r.value| == |s| && forall i :: 0 <= i < |s| ==> r.value[i] == f(s[i]).value
    ensures r.Err? ==> exists i :: 0 <= i < |s| && f(s[i]).Err? && f(s[i]).error == r.error &&
                                   forall j :: 0 <= j < i ==> f(s[j]).Ok?
  {
    if s == [] then Ok([])
    else
      match f(s[0])
      case Err(e) => Err(e)
      case Ok(b) =>
        var rest := MapResult(f, s[1..]);
        match rest
        case Err(e) =>
          assert exists i :: 0 <= i < |s| - 1 && f(s[1..][i]).Err? && f(s[1..][i]).error == e &&
                             forall j :: 0 <= j < i ==> f(s[1..][j]).Ok?;
          var i :| 0 <= i < |s| - 1 && f(s[1..][i]).Err? && f(s[1..][i]).error == e &&
                   forall j :: 0 <= j < i ==> f(s[1..][j]).Ok?;
          assert forall j :: 0 <= j < i + 1 ==> f(s[j]).Ok? by {
            forall j | 0 <= j < i + 1 ensures f(s[j]).Ok? {
              if j > 0 { assert s[j] == s[1..][j - 1]; }
            }
          }
          assert s[i + 1] == s[1..][i];
          Err(e)
        case Ok(bs) => Ok([b] + bs)
  }

  /** The first failing element decides the failure of the whole map. */
  lemma MapResultFirstError<A, B>(f: A -> Result<B>, s: seq<A>, i: nat)
    requires i < |s| && MapResult(f, s[..i]).Ok? && f(s[i]).Err?
    ensures MapResult(f, s) == Err(f(s[i]).error)
  {
    assert forall j :: 0 <= j < i ==> s[..i][j] == s[j];
    var r := MapResult(f, s);
    var k :| 0 <= k < |s| && f(s[k]).Err? && f(s[k]).error == r.error &&
             forall j :: 0 <= j < k ==> f(s[j]).Ok?;
    assert k <= i;
    assert i <= k;
  }

  /** Mapping one more element onto a successful prefix. */
  lemma MapResultSnoc<A, B>(f: A -> Result<B>, s: seq<A>, i: nat)
    requires i < |s| && MapResult(f, s[..i]).Ok? && f(s[i]).Ok?
    ensures MapResult(f, s[..i + 1]) == Ok(MapResult(f, s[..i]).value + [f(s[i]).value])
  {
    var pre := MapResult(f, s[..i]).value;
    assert forall j :: 0 <= j < i ==> f(s[..i][j]).Ok?;
    assert forall j :: 0 <= j < i + 1 ==> s[..i + 1][j] == s[j];
    var r := MapResult(f, s[..i + 1]);
    assert r.Ok? by {
      var t := s[..i + 1];
      forall j | 0 <= j < |t| ensures f(t[j]).Ok? {
        if j < i { assert s[..i][j] == s[j]; }
      }
    }
    assert r.value == pre + [f(s[i]).value] by {
      forall j | 0 <= j < i + 1 ensures r.value[j] == (pre + [f(s[i]).value])[j] {
        if j < i { assert s[..i][j] == s[j]; }
      }
    }
  }

  /** Mapping a concatenation maps each part. */
  lemma MapResultAppend<A, B>(f: A -> Result<B>, a: seq<A>, b: seq<A>)
    requires MapResult(f, a).Ok? && MapResult(f, b).Ok?
    ensures MapResult(f, a + b) == Ok(MapResult(f, a).value + MapResult(f, b).value)
  {
    var ra, rb := MapResult(f, a).value, MapResult(f, b).value;
    forall i | 0 <= i < |a + b| ensures f((a + b)[i]).Ok? {
      if i < |a| { assert (a + b)[i] == a[i]; } else { assert (a + b)[i] == b[i - |a|]; }
    }
    assert MapResult(f, a + b).Ok?;
    var r := MapResult(f, a + b).value;
    forall i | 0 <= i < |a + b| ensures r[i] == (ra + rb)[i] {
      if i < |a| { assert (a + b)[i] == a[i]; } else { assert (a + b)[i] == b[i - |a|]; }
    }
    assert r == ra + rb;
  }

  // ---------------------------------------------------------------------
  // Choosing a resolver from the `type` field
  // ---------------------------------------------------------------------

  /** The closed set of resolvers the service defines, one per method. */
  datatype Kind =
    | Text | MediaId | News | Video | Voice | Img | View | Click
    | PicSysphoto | PicWeixin | PicPhotoOrAlbum | LocationSelect
    | ScancodePush | ScancodeWaitmsg | ViewLimited

  /**
    The part of each resolver's method name between `resolve` and `Menu`, in
    lower case.  Compound names are joined from their words so that lemmas
    about one word at a time apply; evaluating a long literal character by
    character is costly for the verifier.
   */
  function Stem(k: Kind): string
  {
    match k
    case Text => "text"
    case MediaId => "media" + "id"
    case News => "news"
    case Video => "video"
    case Voice => "voice"
    case Img => "img"
    case View => "view"
    case Click => "click"
    case PicSysphoto => "pic" + "sysphoto"
    case PicWeixin => "pic" + "weixin"
    case PicPhotoOrAlbum => "pic" + "photo" + "or" + "album"
    case LocationSelect => "location" + "select"
    case ScancodePush => "scancode" + "push"
    case ScancodeWaitmsg => "scancode" + "waitmsg"
    case ViewLimited => "view" + "limited"
  }

  /** The `type` string the platform uses for each kind, joined from its words like `Stem`. */
  function WireName(k: Kind): string
  {
    match k
    case Text => "text"
    case MediaId => "media" + "_" + "id"
    case News => "news"
    case Video => "video"
    case Voice => "voice"
    case Img => "img"
    case View => "view"
    case Click => "click"
    case PicSysphoto => "pic" + "_" + "sysphoto"
    case PicWeixin => "pic" + "_" + "weixin"
    case PicPhotoOrAlbum => "pic" + "_" + "photo" + "_" + "or" + "_" + "album"
    case LocationSelect => "location" + "_" + "select"
    case ScancodePush => "scancode" + "_" + "push"
    case ScancodeWaitmsg => "scancode" + "_" + "waitmsg"
    case ViewLimited => "view" + "_" + "limited"
  }

  /** Characters that `camel_case` removes: `-` and `_` become word breaks, and spaces are dropped. */
  predicate Separator(c: char)
  {
    c == '-' || c == '_' || c == ' '
  }

  /** ASCII lower-casing, as PHP applies to method names when it looks them up. */
  function LowerChar(c: char): (l: char)
    ensures !('A' <= l <= 'Z')
    ensures !('A' <= c <= 'Z') ==> l == c
  {
    if 'A' <= c <= 'Z' then (c as int + 32) as char else c
  }

  /**
    The method a `type` string selects: `camel_case('resolve_'.$type.'_menu')`
    drops the separators and changes letter case only, and PHP finds methods
    regardless of case, so the lookup compares this normal form.
   */
  function DispatchName(t: string): string
  {
    if t == [] then []
    else (if Separator(t[0]) then [] else [LowerChar(t[0])]) + DispatchName(t[1..])
  }

  /** The resolver whose stem is `d`, if any. */
  function StemKind(d: string): (r: Option<Kind>)
    ensures r.Some? ==> d == Stem(r.value)
    ensures r.None? ==> forall k :: d != Stem(k)
  {
    if d == Stem(Text) then Some(Text)
    else if d == Stem(MediaId) then Some(MediaId)
    else if d == Stem(News) then Some(News)
    else if d == Stem(Video) then Some(Video)
    else if d == Stem(Voice) then Some(Voice)
    else if d == Stem(Img) then Some(Img)
    else if d == Stem(View) then Some(View)
    else if d == Stem(Click) then Some(Click)
    else if d == Stem(PicSysphoto) then Some(PicSysphoto)
    else if d == Stem(PicWeixin) then Some(PicWeixin)
    else if d == Stem(PicPhotoOrAlbum) then Some(PicPhotoOrAlbum)
    else if d == Stem(LocationSelect) then Some(LocationSelect)
    else if d == Stem(ScancodePush) then Some(ScancodePush)
    else if d == Stem(ScancodeWaitmsg) then Some(ScancodeWaitmsg)
    else if d == Stem(ViewLimited) then Some(ViewLimited)
    else None
  }

  /** No two resolvers share a stem, so every stem names its own resolver. */
  lemma StemKindStem(k: Kind)
    ensures StemKind(Stem(k)) == Some(k)
  {
    match k
    case Text =>
    case MediaId =>
    case News =>
    case Video =>
    case Voice =>
    case Img =>
    case View =>
    case Click =>
    case PicSysphoto =>
    case PicWeixin =>
    case PicPhotoOrAlbum =>
    case LocationSelect =>
    case ScancodePush =>
    case ScancodeWaitmsg =>
      assert Stem(ScancodeWaitmsg)[0] != Stem(PicPhotoOrAlbum)[0];
    case ViewLimited =>
      assert Stem(ViewLimited)[0] != Stem(PicSysphoto)[0];
  }

  /** The resolver a `type` string reaches, if any. */
  function KindOf(t: string): (r: Option<Kind>)
    ensures r.Some? ==> DispatchName(t) == Stem(r.value)
    ensures r.None? ==> forall k :: DispatchName(t) != Stem(k)
  {
    StemKind(DispatchName(t))
  }

  /** The dispatch name of a concatenation is the concatenation of the dispatch names. */
  lemma {:induction false} DispatchNameAppend(a: string, b: string)
    ensures DispatchName(a + b) == DispatchName(a) + DispatchName(b)
  {
    if a == [] {
      assert a + b == b;
    } else {
      assert (a + b)[0] == a[0];
      assert (a + b)[1..] == a[1..] + b;
      DispatchNameAppend(a[1..], b);
    }
  }

  /** A word of lower-case ASCII letters, as in the platform's type names. */
  predicate LowerWord(w: string)
  {
    forall i :: 0 <= i < |w| ==> 'a' <= w[i] <= 'z'
  }

  /** A word of lower-case letters is its own dispatch name. */
  lemma {:induction false} DispatchNamePlain(t: string)
    requires LowerWord(t)
    ensures DispatchName(t) == t
  {
    if t != [] {
      DispatchNamePlain(t[1..]);
    }
  }

  /** Joining two strings with `_` joins their dispatch names. */
  lemma JoinDispatch(a: string, b: string)
    ensures DispatchName(a + "_" + b) == DispatchName(a) + DispatchName(b)
  {
    var sep: string := "_";
    assert DispatchName(sep) == [];
    DispatchNameAppend(a, sep);
    DispatchNameAppend(a + sep, b);
  }

  /** `a_b` for two lower-case words dispatches as `ab`. */
  lemma SnakeDispatch(a: string, b: string)
    requires LowerWord(a) && LowerWord(b)
    ensures DispatchName(a + "_" + b) == a + b
  {
    DispatchNamePlain(a);
    DispatchNamePlain(b);
    JoinDispatch(a, b);
  }

  /** `a_b_c_d` for four lower-case words dispatches as `abcd`. */
  lemma SnakeDispatch4(a: string, b: string, c: string, d: string)
    requires LowerWord(a) && LowerWord(b) && LowerWord(c) && LowerWord(d)
    ensures DispatchName(a + "_" + b + "_" + c + "_" + d) == a + b + c + d
  {
    SnakeDispatch(a, b);
    JoinDispatch(a + "_" + b, c);
    DispatchNamePlain(c);
    JoinDispatch(a + "_" + b + "_" + c, d);
    DispatchNamePlain(d);
  }

  /** One-word type strings are their own stems. */
  lemma WordDispatch(k: Kind)
    requires k in {Text, News, Video, Voice, Img, View, Click}
    ensures DispatchName(WireName(k)) == Stem(k)
  {
    match k
    case Text => DispatchNamePlain("text");
    case News => DispatchNamePlain("news");
    case Video => DispatchNamePlain("video");
    case Voice => DispatchNamePlain("voice");
    case Img => DispatchNamePlain("img");
    case View => DispatchNamePlain("view");
    case Click => DispatchNamePlain("click");
  }

  /** The `pic_` type strings lose their underscores. */
  lemma PicDispatch(k: Kind)
    requires k in {PicSysphoto, PicWeixin, PicPhotoOrAlbum}
    ensures DispatchName(WireName(k)) == Stem(k)
  {
    match k
    case PicSysphoto =>
      SnakeDispatch("pic", "sysphoto");
    case PicWeixin =>
      SnakeDispatch("pic", "weixin");
    case PicPhotoOrAlbum =>
      SnakeDispatch4("pic", "photo", "or", "album");
  }

  /** The other two-word type strings lose their underscore. */
  lemma PairDispatch(k: Kind)
    requires k in {MediaId, LocationSelect, ScancodePush, ScancodeWaitmsg, ViewLimited}
    ensures DispatchName(WireName(k)) == Stem(k)
  {
    match k
    case MediaId =>
      SnakeDispatch("media", "id");
    case LocationSelect =>
      SnakeDispatch("location", "select");
    case ScancodePush =>
      SnakeDispatch("scancode", "push");
    case ScancodeWaitmsg =>
      SnakeDispatch("scancode", "waitmsg");
    case ViewLimited =>
      SnakeDispatch("view", "limited");
  }

  /** Each platform type string normalises to its resolver's stem. */
  lemma WireDispatch(k: Kind)
    ensures DispatchName(WireName(k)) == Stem(k)
  {
    if k in {Text, News, Video, Voice, Img, View, Click} {
      WordDispatch(k);
    } else if k in {PicSysphoto, PicWeixin, PicPhotoOrAlbum} {
      PicDispatch(k);
    } else {
      PairDispatch(k);
    }
  }

  /** Each platform type string reaches its own resolver. */
  lemma KindOfWireName(k: Kind)
    ensures KindOf(WireName(k)) == Some(k)
  {
    WireDispatch(k);
    StemKindStem(k);
  }

  /** Lower-casing an upper-cased character gives the lower-cased original. */
  lemma LowerUpperChar(c: char)
    ensures LowerChar(Event.UpperChar(c)) == LowerChar(c)
    ensures Separator(Event.UpperChar(c)) <==> Separator(c)
  {
  }

  /** Method lookup ignores letter case: upper-casing a type string reaches the same resolver. */
  lemma {:induction false} DispatchIgnoresCase(t: string)
    ensures DispatchName(Event.Upper(t)) == DispatchName(t)
  {
    if t != [] {
      var u := Event.Upper(t);
      assert u[1..] == Event.Upper(t[1..]);
      LowerUpperChar(t[0]);
      DispatchIgnoresCase(t[1..]);
    }
  }

  /** The resolver choice is case-insensitive: `TEXT` and `text` pick the same one. */
  lemma KindOfIgnoresCase(t: string)
    ensures KindOf(Event.Upper(t)) == KindOf(t)
  {
    DispatchIgnoresCase(t);
  }

  /** Kinds whose resolver always answers `false`. */
  predicate Dropped(k: Kind)
  {
    k == MediaId || k == Img || k == Voice || k == Video || k == ViewLimited
  }

  /** Kinds whose resolver returns the button unchanged. */
  predicate PassThrough(k: Kind)
  {
    k == PicSysphoto || k == PicWeixin || k == PicPhotoOrAlbum ||
    k == LocationSelect || k == ScancodePush || k == ScancodeWaitmsg
  }

  // ---------------------------------------------------------------------
  // Field access and the per-kind resolvers
  // ---------------------------------------------------------------------

  /** `$menu[f]`: a missing index raises. */
  function Get(menu: Fields, f: string): (r: Result<Value>)
    ensures r.Ok? <==> f in menu
    ensures r.Ok? ==> r.value == menu[f]
    ensures r.Err? ==> r.error == MissingField(f)
  {
    if f in menu then Ok(menu[f]) else Err(MissingField(f))
  }

  /** `$menu[f]` used as a string. */
  function GetStr(menu: Fields, f: string): (r: Result<string>)
    ensures r.Ok? <==> f in menu && menu[f].Str?
    ensures r.Ok? ==> menu[f] == Str(r.value)
    ensures f !in menu ==> r == Err(MissingField(f))
    ensures f in menu && !menu[f].Str? ==> r == Err(WrongShape(f))
  {
    if f !in menu then Err(MissingField(f))
    else if menu[f].Str? then Ok(menu[f].s)
    else Err(WrongShape(f))
  }

  /** The resolver a leaf's `type` names, or the failure of naming one. */
  function LeafKind(menu: Fields): (r: Result<Kind>)
    ensures r.Ok? <==> "type" in menu && menu["type"].Str? && KindOf(menu["type"].s).Some?
    ensures r.Ok? ==> r.value == KindOf(menu["type"].s).value
    ensures "type" in menu && menu["type"].Str? && KindOf(menu["type"].s).None? ==>
              r == Err(NoResolver(menu["type"].s))
  {
    match GetStr(menu, "type")
    case Err(e) => Err(e)
    case Ok(t) =>
      match KindOf(t)
      case None => Err(NoResolver(t))
      case Some(k) => Ok(k)
  }

  /** Every field of `before` outside `except` is in `after` with the same value. */
  predicate KeepsOthers(before: Fields, after: Fields, except: set<string>)
  {
    forall f :: f in before && f !in except ==> f in after && after[f] == before[f]
  }

  /**
    `resolveTextMenu`: the text is saved as material, the leaf becomes a
    click whose key the event service derives from the material, and the
    text field goes.  The source declares this resolver with an account
    parameter but dispatches it with the button alone; the account is
    passed explicitly here.
   */
  function ResolveText(svc: Services, account: AccountId, menu: Fields): (r: Result<Fields>)
    ensures "value" !in menu ==> r == Err(MissingField("value"))
    ensures "value" in menu ==>
              && r.Ok?
              && r.value.Keys == menu.Keys - {"value"} + {"type", "key"}
              && r.value["type"] == Str("click")
              && r.value["key"] == Str(svc.makeMediaId(svc.saveText(account, menu["value"])))
              && KeepsOthers(menu, r.value, {"type", "key", "value"})
  {
    match Get(menu, "value")
    case Err(e) => Err(e)
    case Ok(text) =>
      var key := svc.makeMediaId(svc.saveText(account, text));
      Ok((menu - {"value"})["type" := Str("click")]["key" := Str(key)])
  }

  /**
    `resolveNewsMenu`: the inline article list is saved as material for the
    account (the source reads the current account from a global), the leaf
    becomes a click keyed by the event service, and both the `value` and the
    `news_info` fields go.
   */
  function ResolveNews(svc: Services, account: AccountId, menu: Fields): (r: Result<Fields>)
    ensures "news_info" !in menu ==> r == Err(MissingField("news_info"))
    ensures "news_info" in menu && !menu["news_info"].Articles? ==> r == Err(WrongShape("news_info"))
    ensures "news_info" in menu && menu["news_info"].Articles? ==>
              && r.Ok?
              && r.value.Keys == menu.Keys - {"value", "news_info"} + {"type", "key"}
              && r.value["type"] == Str("click")
              && r.value["key"] == Str(svc.makeMediaId(svc.saveArticle(account, menu["news_info"].list)))
              && KeepsOthers(menu, r.value, {"type", "key", "value", "news_info"})
  {
    match Get(menu, "news_info")
    case Err(e) => Err(e)
    case Ok(info) =>
      if !info.Articles? then Err(WrongShape("news_info"))
      else
        var key := svc.makeMediaId(svc.saveArticle(account, info.list));
        Ok((menu - {"value", "news_info"})["type" := Str("click")]["key" := Str(key)])
  }

  /** `resolveViewMenu`: the link moves from `url` to `key`; nothing else changes. */
  function ResolveView(menu: Fields): (r: Result<Fields>)
    ensures "url" !in menu ==> r == Err(MissingField("url"))
    ensures "url" in menu ==>
              && r.Ok?
              && r.value.Keys == menu.Keys - {"url"} + {"key"}
              && r.value["key"] == menu["url"]
              && KeepsOthers(menu, r.value, {"key", "url"})
  {
    match Get(menu, "url")
    case Err(e) => Err(e)
    case Ok(url) => Ok((menu - {"url"})["key" := url])
  }

  /** `resolveClickMenu`: a click is kept, unchanged, exactly when its key passes `isOwnEvent`. */
  function ResolveClick(menu: Fields): (r: Result<Option<Fields>>)
    ensures "key" !in menu ==> r == Err(MissingField("key"))
    ensures "key" in menu && !menu["key"].Str? ==> r == Err(WrongShape("key"))
    ensures "key" in menu && menu["key"].Str? ==>
              && r.Ok?
              && (r.value == Some(menu) <==> Event.IsOwnEvent(menu["key"].s))
              && (r.value.None? <==> !Event.IsOwnEvent(menu["key"].s))
  {
    match GetStr(menu, "key")
    case Err(e) => Err(e)
    case Ok(key) => if Event.IsOwnEvent(key) then Ok(Some(menu)) else Ok(None)
  }

  /** A resolver result that is never dropped. */
  function Kept(r: Result<Fields>): Result<Option<Fields>>
  {
    match r
    case Err(e) => Err(e)
    case Ok(f) => Ok(Some(f))
  }

  /**
    Dispatch of a leaf to the resolver its `type` names.  The media-id,
    image, voice, video and view-limited resolvers answer `false` before
    doing anything (the code after their first `return` never runs); the six
    interactive kinds pass through.
   */
  function ResolveLeaf(svc: Services, account: AccountId, menu: Fields): (r: Result<Option<Fields>>)
    ensures LeafKind(menu).Err? ==> r == Err(LeafKind(menu).error)
    ensures LeafKind(menu).Ok? && Dropped(LeafKind(menu).value) ==> r == Ok(None)
    ensures LeafKind(menu).Ok? && PassThrough(LeafKind(menu).value) ==> r == Ok(Some(menu))
    ensures r == Ok(None) ==>
              LeafKind(menu).Ok? && (Dropped(LeafKind(menu).value) || LeafKind(menu).value == Click)
    ensures LeafKind(menu) == Ok(Text) ==> r == Kept(ResolveText(svc, account, menu))
    ensures LeafKind(menu) == Ok(News) ==> r == Kept(ResolveNews(svc, account, menu))
    ensures LeafKind(menu) == Ok(View) ==> r == Kept(ResolveView(menu))
    ensures LeafKind(menu) == Ok(Click) ==> r == ResolveClick(menu)
  {
    match LeafKind(menu)
    case Err(e) => Err(e)
    case Ok(k) =>
      match k
      case Text => Kept(ResolveText(svc, account, menu))
      case News => Kept(ResolveNews(svc, account, menu))
      case View => Kept(ResolveView(menu))
      case Click => ResolveClick(menu)
      case MediaId | Img | Voice | Video | ViewLimited => Ok(None)
      case PicSysphoto | PicWeixin | PicPhotoOrAlbum | LocationSelect | ScancodePush | ScancodeWaitmsg =>
        Ok(Some(menu))
  }

  /**
    A leaf that survives resolution has a kind whose resolver keeps it:
    text and news leaves come out as clicks, the rest keep their type.
   */
  lemma ResolvedLeafKept(svc: Services, account: AccountId, menu: Fields)
    requires ResolveLeaf(svc, account, menu).Ok? && ResolveLeaf(svc, account, menu).value.Some?
    ensures KeptLeaf(ResolveLeaf(svc, account, menu).value.value)
  {
    var out := ResolveLeaf(svc, account, menu).value.value;
    assert LeafKind(menu).Ok?;
    var k := LeafKind(menu).value;
    if k == Text {
      assert out == ResolveText(svc, account, menu).value;
      ClickKept(out);
    } else if k == News {
      assert out == ResolveNews(svc, account, menu).value;
      ClickKept(out);
    } else if k == View {
      assert out == ResolveView(menu).value;
      LeafKindSameType(menu, out);
    } else {
      assert out == menu;
    }
  }

  /** A leaf typed `click` reaches the click resolver, which is not a dropping one. */
  lemma ClickKept(f: Fields)
    requires "type" in f && f["type"] == Str("click")
    ensures LeafKind(f) == Ok(Click) && KeptLeaf(f)
  {
    KindOfWireName(Click);
  }

  /** The resolver a leaf reaches depends on its `type` field alone. */
  lemma LeafKindSameType(a: Fields, b: Fields)
    requires "type" in a && "type" in b && a["type"] == b["type"]
    ensures LeafKind(a) == LeafKind(b)
  {
  }

  /** Interactive kinds and owned clicks come back from their resolver unchanged. */
  lemma StableLeafResolves(svc: Services, account: AccountId, f: Fields)
    requires StableLeaf(f)
    ensures ResolveLeaf(svc, account, f) == Ok(Some(f))
  {
  }

  // ---------------------------------------------------------------------
  // Pull direction: analysis, compaction, localisation
  // ---------------------------------------------------------------------

  /**
    `analyseRemoteMenu`: a parent has its sub-button list replaced by the
    per-entry resolution of that list; a leaf goes to its resolver.  The
    source would also recurse into a sub-button that itself carries a list;
    the platform's menus are two levels deep and so is this model.
   */
  function AnalyseRemoteMenu(svc: Services, account: AccountId, node: MenuNode): (r: Result<Option<Analysed>>)
    ensures node.Parent? ==>
              (r.Ok? <==> forall i :: 0 <= i < |node.sub| ==> ResolveLeaf(svc, account, node.sub[i]).Ok?)
    ensures node.Parent? && r.Ok? ==>
              && r.value.Some?
              && r.value.value.AnalysedParent?
              && r.value.value.attrs == node.attrs
              && |r.value.value.sub| == |node.sub|
              && forall i :: 0 <= i < |node.sub| ==>
                   r.value.value.sub[i] == ResolveLeaf(svc, account, node.sub[i]).value
    ensures node.Leaf? ==> (r.Ok? <==> ResolveLeaf(svc, account, node.attrs).Ok?)
    ensures node.Leaf? && r.Ok? ==>
              && (r.value.None? <==> ResolveLeaf(svc, account, node.attrs).value.None?)
              && (r.value.Some? ==> r.value.value == AnalysedLeaf(ResolveLeaf(svc, account, node.attrs).value.value))
  {
    match node
    case Parent(attrs, list) =>
      (match MapResult(f => ResolveLeaf(svc, account, f), list)
       case Err(e) => Err(e)
       case Ok(sub) => Ok(Some(AnalysedParent(attrs, sub))))
    case Leaf(attrs) =>
      match ResolveLeaf(svc, account, attrs)
      case Err(e) => Err(e)
      case Ok(None) => Ok(None)
      case Ok(Some(f)) => Ok(Some(AnalysedLeaf(f)))
  }

  /** `array_filter` on resolved entries: the kept values, in order. */
  function Somes<T(==,!new)>(s: seq<Option<T>>): (r: seq<T>)
    ensures |r| <= |s|
    ensures forall x :: x in r <==> Some(x) in s
  {
    if s == [] then []
    else (if s[0].Some? then [s[0].value] else []) + Somes(s[1..])
  }

  /** Filtering a concatenation filters each part, so the kept entries keep their order. */
  lemma {:induction false} SomesAppend<T(!new)>(a: seq<Option<T>>, b: seq<Option<T>>)
    ensures Somes(a + b) == Somes(a) + Somes(b)
  {
    if a == [] {
      assert a + b == b;
    } else {
      assert (a + b)[1..] == a[1..] + b;
      SomesAppend(a[1..], b);
    }
  }

  /** When nothing was dropped, filtering gives back every value in place. */
  lemma {:induction false} SomesAllKept<T(!new)>(s: seq<Option<T>>)
    requires forall i :: 0 <= i < |s| ==> s[i].Some?
    ensures |Somes(s)| == |s|
    ensures forall i :: 0 <= i < |s| ==> Somes(s)[i] == s[i].value
  {
    if s != [] {
      SomesAllKept(s[1..]);
      assert forall i :: 1 <= i < |s| ==> Somes(s)[i] == Somes(s[1..])[i - 1];
    }
  }

  /** A compacted entry: a parent keeps only its surviving children. */
  function Clean(a: Analysed): MenuNode
  {
    match a
    case AnalysedParent(attrs, sub) => Parent(attrs, Somes(sub))
    case AnalysedLeaf(f) => Leaf(f)
  }

  /** What `filterEmptyMenu` computes: dropped top-level entries removed, each parent's children filtered. */
  function Compact(entries: seq<Option<Analysed>>): (r: seq<MenuNode>)
    ensures |r| <= |entries|
    ensures forall m :: m in r <==> exists a :: Some(a) in entries && m == Clean(a)
  {
    if entries == [] then []
    else
      var head := match entries[0] case None => [] case Some(a) => [Clean(a)];
      assert forall m :: m in head <==> exists a :: Some(a) == entries[0] && m == Clean(a);
      assert forall m :: m in Compact(entries[1..]) <==> exists a :: Some(a) in entries[1..] && m == Clean(a);
      assert entries == [entries[0]] + entries[1..];
      head + Compact(entries[1..])
  }

  /** Compacting a concatenation compacts each part: survivors keep their relative order. */
  lemma {:induction false} CompactAppend(a: seq<Option<Analysed>>, b: seq<Option<Analysed>>)
    ensures Compact(a + b) == Compact(a) + Compact(b)
  {
    if a == [] {
      assert a + b == b;
    } else {
      assert (a + b)[0] == a[0];
      assert (a + b)[1..] == a[1..] + b;
      CompactAppend(a[1..], b);
    }
  }

  /**
    `filterEmptyMenu`: walks the analysed entries, skipping the dropped ones
    and passing the children of the others through `array_filter`.  The source unsets entries of
    the array in place and keeps the old indices; the model renumbers.
   */
  method FilterEmptyMenu(menus: seq<Option<Analysed>>) returns (r: seq<MenuNode>)
    ensures r == Compact(menus)
  {
    r := [];
    var i := 0;
    while i < |menus|
      invariant 0 <= i <= |menus|
      invariant r == Compact(menus[..i])
    {
      CompactAppend(menus[..i], [menus[i]]);
      assert menus[..i + 1] == menus[..i] + [menus[i]];
      match menus[i] {
      case None =>
      case Some(AnalysedLeaf(f)) =>
        r := r + [Leaf(f)];
      case Some(AnalysedParent(attrs, sub)) =>
        r := r + [Parent(attrs, Somes(sub))];
      }
      i := i + 1;
    }
    assert menus[..i] == menus;
  }

  /**
    `localize`: an empty button list gives an empty menu; otherwise every
    button is analysed and the result compacted.  The source first unwraps
    `selfmenu_info.button` from the platform's response; the model takes the
    button list itself.
   */
  function Localize(svc: Services, account: AccountId, buttons: seq<MenuNode>): (r: Result<seq<MenuNode>>)
    ensures buttons == [] ==> r == Ok([])
    ensures r.Ok? <==> forall i :: 0 <= i < |buttons| ==> AnalyseRemoteMenu(svc, account, buttons[i]).Ok?
    ensures r.Ok? ==> |r.value| <= |buttons|
    ensures r.Ok? ==> r.value == Compact(AnalysedAll(svc, account, buttons).value)
  {
    if buttons == [] then Ok([])
    else
      match AnalysedAll(svc, account, buttons)
      case Err(e) => Err(e)
      case Ok(analysed) => Ok(Compact(analysed))
  }

  /** `array_map` of `analyseRemoteMenu` over the buttons. */
  function AnalysedAll(svc: Services, account: AccountId, buttons: seq<MenuNode>): (r: Result<seq<Option<Analysed>>>)
    ensures r.Ok? <==> forall i :: 0 <= i < |buttons| ==> AnalyseRemoteMenu(svc, account, buttons[i]).Ok?
    ensures r.Ok? ==> |r.value| == |buttons|
    ensures r.Ok? ==> forall i :: 0 <= i < |buttons| ==> r.value[i] == AnalyseRemoteMenu(svc, account, buttons[i]).value
  {
    MapResult(Analyser(svc, account), buttons)
  }

  /** `analyseRemoteMenu` bound to one account, as `array_map` receives it. */
  function Analyser(svc: Services, account: AccountId): (f: MenuNode -> Result<Option<Analysed>>)
    ensures forall b :: f(b) == AnalyseRemoteMenu(svc, account, b)
  {
    b => AnalyseRemoteMenu(svc, account, b)
  }

  /** Localising a concatenation localises each part: top-level survivors keep their order. */
  lemma LocalizeAppend(svc: Services, account: AccountId, a: seq<MenuNode>, b: seq<MenuNode>)
    requires Localize(svc, account, a).Ok? && Localize(svc, account, b).Ok?
    ensures Localize(svc, account, a + b) == Ok(Localize(svc, account, a).value + Localize(svc, account, b).value)
  {
    var xa, xb := AnalysedAll(svc, account, a).value, AnalysedAll(svc, account, b).value;
    MapResultAppend(Analyser(svc, account), a, b);
    assert AnalysedAll(svc, account, a + b) == Ok(xa + xb);
    CompactAppend(xa, xb);
  }

  /** A remote parent whose children are all dropped stays, with an empty sub-button list. */
  lemma LocalizeKeepsEmptyParents(svc: Services, account: AccountId, buttons: seq<MenuNode>, i: nat)
    requires i < |buttons| && buttons[i].Parent?
    requires forall j :: 0 <= j < |buttons[i].sub| ==> ResolveLeaf(svc, account, buttons[i].sub[j]) == Ok(None)
    requires Localize(svc, account, buttons).Ok?
    ensures Parent(buttons[i].attrs, []) in Localize(svc, account, buttons).value
  {
    var analysed := AnalysedAll(svc, account, buttons).value;
    var node := buttons[i];
    var a := AnalyseRemoteMenu(svc, account, node).value.value;
    assert analysed[i] == Some(a);
    assert forall j :: 0 <= j < |a.sub| ==> a.sub[j].None?;
    SomesAllDropped(a.sub);
    assert Clean(a) == Parent(node.attrs, []);
  }

  /** When every entry was dropped, nothing is kept. */
  lemma SomesAllDropped<T(!new)>(s: seq<Option<T>>)
    requires forall i :: 0 <= i < |s| ==> s[i].None?
    ensures Somes(s) == []
  {
  }

  /** A leaf that survives resolution: its kind is not one of the dropped kinds. */
  predicate KeptLeaf(f: Fields)
  {
    LeafKind(f).Ok? && !Dropped(LeafKind(f).value)
  }

  /** Every leaf of a local menu, top-level or child, is a kept leaf. */
  predicate LeavesKept(ms: seq<MenuNode>)
  {
    forall i :: 0 <= i < |ms| ==>
      match ms[i]
      case Leaf(f) => KeptLeaf(f)
      case Parent(_, sub) => forall j :: 0 <= j < |sub| ==> KeptLeaf(sub[j])
  }

  /** Every leaf of an analysed entry that was not dropped is a kept leaf. */
  predicate AnalysedKept(a: Analysed)
  {
    match a
    case AnalysedLeaf(f) => KeptLeaf(f)
    case AnalysedParent(_, sub) => forall j :: 0 <= j < |sub| && sub[j].Some? ==> KeptLeaf(sub[j].value)
  }

  lemma CleanKept(a: Analysed)
    requires AnalysedKept(a)
    ensures LeavesKept([Clean(a)])
  {
    if a.AnalysedParent? {
      var kept := Somes(a.sub);
      forall j | 0 <= j < |kept| ensures KeptLeaf(kept[j]) {
        assert kept[j] in kept;
        assert Some(kept[j]) in a.sub;
      }
    }
  }

  /**
    No leaf of a localised menu has a kind whose resolver drops it: images,
    voice, video, media ids and view-limited links never reach the local
    tree.
   */
  lemma LocalizedLeavesKept(svc: Services, account: AccountId, buttons: seq<MenuNode>)
    requires Localize(svc, account, buttons).Ok?
    ensures LeavesKept(Localize(svc, account, buttons).value)
  {
    if buttons != [] {
      var analysed := AnalysedAll(svc, account, buttons).value;
      var out := Compact(analysed);
      forall i | 0 <= i < |out|
        ensures match out[i]
                case Leaf(f) => KeptLeaf(f)
                case Parent(_, sub) => forall j :: 0 <= j < |sub| ==> KeptLeaf(sub[j])
      {
        assert out[i] in out;
        var a :| Some(a) in analysed && out[i] == Clean(a);
        var k :| 0 <= k < |analysed| && analysed[k] == Some(a);
        assert AnalysedKept(a) by {
          if a.AnalysedParent? {
            forall j | 0 <= j < |a.sub| && a.sub[j].Some? ensures KeptLeaf(a.sub[j].value) {
              assert a.sub[j] == ResolveLeaf(svc, account, buttons[k].sub[j]).value;
              ResolvedLeafKept(svc, account, buttons[k].sub[j]);
            }
          } else {
            ResolvedLeafKept(svc, account, buttons[k].attrs);
          }
        }
        CleanKept(a);
        assert [Clean(a)][0] == out[i];
      }
    }
  }

  /** `before` is `after` with every leaf replaced by what its resolver returned. */
  predicate ResolvesTo(svc: Services, account: AccountId, before: MenuNode, after: MenuNode)
  {
    match before
    case Leaf(f) => after.Leaf? && ResolveLeaf(svc, account, f) == Ok(Some(after.attrs))
    case Parent(attrs, sub) =>
      && after.Parent?
      && after.attrs == attrs
      && |after.sub| == |sub|
      && forall j :: 0 <= j < |sub| ==> ResolveLeaf(svc, account, sub[j]) == Ok(Some(after.sub[j]))
  }

  /** Every leaf of the node resolves to a kept leaf. */
  predicate NothingDropped(svc: Services, account: AccountId, node: MenuNode)
  {
    match node
    case Leaf(f) => ResolveLeaf(svc, account, f).Ok? && ResolveLeaf(svc, account, f).value.Some?
    case Parent(_, sub) =>
      forall j :: 0 <= j < |sub| ==>
        ResolveLeaf(svc, account, sub[j]).Ok? && ResolveLeaf(svc, account, sub[j]).value.Some?
  }

  /**
    When no leaf is dropped, localising keeps the tree's shape: as many
    top-level buttons, in order, each parent with as many children, and
    every leaf replaced by its resolution.
   */
  lemma LocalizeWithoutDrops(svc: Services, account: AccountId, buttons: seq<MenuNode>)
    requires forall i :: 0 <= i < |buttons| ==> NothingDropped(svc, account, buttons[i])
    ensures Localize(svc, account, buttons).Ok?
    ensures |Localize(svc, account, buttons).value| == |buttons|
    ensures forall i :: 0 <= i < |buttons| ==>
              ResolvesTo(svc, account, buttons[i], Localize(svc, account, buttons).value[i])
  {
    if buttons != [] {
      forall i | 0 <= i < |buttons| ensures AnalyseRemoteMenu(svc, account, buttons[i]).Ok? {
        if buttons[i].Parent? {
          assert forall j :: 0 <= j < |buttons[i].sub| ==> ResolveLeaf(svc, account, buttons[i].sub[j]).Ok?;
        }
      }
      var analysed := AnalysedAll(svc, account, buttons).value;
      assert forall i :: 0 <= i < |analysed| ==> analysed[i].Some?;
      CompactAllKept(analysed);
      forall i | 0 <= i < |buttons|
        ensures ResolvesTo(svc, account, buttons[i], Compact(analysed)[i])
      {
        var a := analysed[i].value;
        if buttons[i].Parent? {
          SomesAllKept(a.sub);
        }
      }
    }
  }

  /** When no top-level entry was dropped, compaction cleans each entry in place. */
  lemma {:induction false} CompactAllKept(entries: seq<Option<Analysed>>)
    requires forall i :: 0 <= i < |entries| ==> entries[i].Some?
    ensures |Compact(entries)| == |entries|
    ensures forall i :: 0 <= i < |entries| ==> Compact(entries)[i] == Clean(entries[i].value)
  {
    if entries != [] {
      CompactAllKept(entries[1..]);
      assert forall i :: 1 <= i < |entries| ==> Compact(entries)[i] == Compact(entries[1..])[i - 1];
    }
  }

  /** A leaf that pulls back unchanged: an interactive kind, or a click whose key passes `isOwnEvent`. */
  predicate StableLeaf(f: Fields)
  {
    && LeafKind(f).Ok?
    && (|| PassThrough(LeafKind(f).value)
        || (LeafKind(f).value == Click && "key" in f && f["key"].Str? && Event.IsOwnEvent(f["key"].s)))
  }

  /**
    The source tells a parent from a leaf by the presence of a `sub_button`
    field, the model by constructor; the two agree when no leaf, top-level
    or child, carries that field.
   */
  predicate WellFormed(node: MenuNode)
  {
    match node
    case Leaf(f) => "sub_button" !in f
    case Parent(_, sub) => forall j :: 0 <= j < |sub| ==> "sub_button" !in sub[j]
  }

  predicate StableNode(node: MenuNode)
  {
    match node
    case Leaf(f) => StableLeaf(f)
    case Parent(_, sub) => forall j :: 0 <= j < |sub| ==> StableLeaf(sub[j])
  }

  /** A click whose key `isOwnEvent` rejects: its resolver drops it. */
  predicate RejectedClick(f: Fields)
  {
    && LeafKind(f) == Ok(Click)
    && "key" in f && f["key"].Str?
    && !Event.IsOwnEvent(f["key"].s)
  }

  /** The click resolver drops a click whose key `isOwnEvent` rejects. */
  lemma RejectedClickResolves(svc: Services, account: AccountId, f: Fields)
    requires RejectedClick(f)
    ensures ResolveLeaf(svc, account, f) == Ok(None)
  {
  }

  /** A top-level click whose key `isOwnEvent` rejects does not reach the local menu. */
  lemma RejectedClickDropped(svc: Services, account: AccountId, f: Fields)
    requires RejectedClick(f)
    ensures Localize(svc, account, [Leaf(f)]) == Ok([])
  {
    RejectedClickResolves(svc, account, f);
    assert AnalysedAll(svc, account, [Leaf(f)]).value == [None];
  }

  /**
    A click keyed by `buildEventKey` is one the application created, yet the
    pull drops it: `isOwnEvent` rejects every such key.
   */
  lemma BuiltKeyClickDropped(svc: Services, account: AccountId, f: Fields, uniq: string)
    requires LeafKind(f) == Ok(Click)
    requires "key" in f && f["key"] == Str(Event.BuildEventKey(uniq))
    ensures Localize(svc, account, [Leaf(f)]) == Ok([])
  {
    Event.BuiltKeyNotOwned(uniq);
    RejectedClickDropped(svc, account, f);
  }

  /** The resolved sub-button list of children that each pass through unchanged. */
  lemma {:induction false} SomesOfStable<T(!new)>(xs: seq<T>, rs: seq<Option<T>>)
    requires |rs| == |xs|
    requires forall j :: 0 <= j < |xs| ==> rs[j] == Some(xs[j])
    ensures Somes(rs) == xs
  {
    SomesAllKept(rs);
  }

  /** A parent whose children all resolve is pulled back over the kept resolutions, in order. */
  lemma LocalizeOneParent(svc: Services, account: AccountId, attrs: Fields, sub: seq<Fields>)
    requires forall j :: 0 <= j < |sub| ==> ResolveLeaf(svc, account, sub[j]).Ok?
    ensures AnalyseRemoteMenu(svc, account, Parent(attrs, sub)).Ok?
    ensures Localize(svc, account, [Parent(attrs, sub)])
            == Ok([Parent(attrs, Somes(AnalyseRemoteMenu(svc, account, Parent(attrs, sub)).value.value.sub))])
  {
    var node := Parent(attrs, sub);
    var a := AnalyseRemoteMenu(svc, account, node).value.value;
    var all := AnalysedAll(svc, account, [node]).value;
    assert all == [Some(a)];
    assert Compact(all) == [Clean(a)] by {
      assert all[1..] == [];
    }
  }

  /** Filtering kept entries around one dropped entry gives the kept values, in order. */
  lemma SomesDropOne<T(!new)>(pre: seq<T>, post: seq<T>, rs: seq<Option<T>>)
    requires |rs| == |pre| + 1 + |post|
    requires forall j :: 0 <= j < |pre| ==> rs[j] == Some(pre[j])
    requires rs[|pre|] == None
    requires forall j :: 0 <= j < |post| ==> rs[|pre| + 1 + j] == Some(post[j])
    ensures Somes(rs) == pre + post
  {
    var rpre, rpost := rs[..|pre|], rs[|pre| + 1..];
    var gap: seq<Option<T>> := [None];
    assert rs == rpre + gap + rpost;
    assert Somes(gap) == [] by {
      assert gap[1..] == [];
    }
    SomesOfStable(pre, rpre);
    SomesOfStable(post, rpost);
    SomesAppend(rpre, gap);
    assert Somes(rpre + gap) == pre;
    SomesAppend(rpre + gap, rpost);
  }

  /**
    A child that its resolver drops is removed from its parent, and the
    siblings around it, which resolve to themselves, stay in order.
   */
  lemma LocalizeDropsChild(svc: Services, account: AccountId, attrs: Fields,
                           pre: seq<Fields>, f: Fields, post: seq<Fields>)
    requires forall j :: 0 <= j < |pre| ==> ResolveLeaf(svc, account, pre[j]) == Ok(Some(pre[j]))
    requires ResolveLeaf(svc, account, f) == Ok(None)
    requires forall j :: 0 <= j < |post| ==> ResolveLeaf(svc, account, post[j]) == Ok(Some(post[j]))
    ensures Localize(svc, account, [Parent(attrs, pre + [f] + post)]) == Ok([Parent(attrs, pre + post)])
  {
    var sub := pre + [f] + post;
    assert forall j :: 0 <= j < |pre| ==> sub[j] == pre[j];
    assert sub[|pre|] == f;
    assert forall j :: 0 <= j < |post| ==> sub[|pre| + 1 + j] == post[j];
    assert forall j :: 0 <= j < |sub| ==> ResolveLeaf(svc, account, sub[j]).Ok? by {
      forall j | 0 <= j < |sub| ensures ResolveLeaf(svc, account, sub[j]).Ok? {
        if |pre| < j {
          assert sub[j] == post[j - |pre| - 1];
        }
      }
    }
    LocalizeOneParent(svc, account, attrs, sub);
    var rs := AnalyseRemoteMenu(svc, account, Parent(attrs, sub)).value.value.sub;
    SomesDropOne(pre, post, rs);
  }

  /**
    A child click whose key `isOwnEvent` rejects is removed from its parent, and the
    siblings around it keep their order.
   */
  lemma LocalizeDropsRejectedChild(svc: Services, account: AccountId, attrs: Fields,
                                  pre: seq<Fields>, f: Fields, post: seq<Fields>)
    requires forall j :: 0 <= j < |pre| ==> StableLeaf(pre[j])
    requires RejectedClick(f)
    requires forall j :: 0 <= j < |post| ==> StableLeaf(post[j])
    ensures Localize(svc, account, [Parent(attrs, pre + [f] + post)]) == Ok([Parent(attrs, pre + post)])
  {
    forall j | 0 <= j < |pre| ensures ResolveLeaf(svc, account, pre[j]) == Ok(Some(pre[j])) {
      StableLeafResolves(svc, account, pre[j]);
    }
    RejectedClickResolves(svc, account, f);
    forall j | 0 <= j < |post| ensures ResolveLeaf(svc, account, post[j]) == Ok(Some(post[j])) {
      StableLeafResolves(svc, account, post[j]);
    }
    LocalizeDropsChild(svc, account, attrs, pre, f, post);
  }

  /** A menu made only of interactive kinds and owned clicks is pulled back exactly as it is. */
  lemma LocalizeIdentity(svc: Services, account: AccountId, buttons: seq<MenuNode>)
    requires forall i :: 0 <= i < |buttons| ==> WellFormed(buttons[i]) && StableNode(buttons[i])
    ensures Localize(svc, account, buttons) == Ok(buttons)
  {
    forall i | 0 <= i < |buttons| ensures NothingDropped(svc, account, buttons[i]) {
      match buttons[i]
      case Leaf(f) =>
        StableLeafResolves(svc, account, f);
      case Parent(_, sub) =>
        forall j | 0 <= j < |sub| ensures ResolveLeaf(svc, account, sub[j]) == Ok(Some(sub[j])) {
          StableLeafResolves(svc, account, sub[j]);
        }
    }
    LocalizeWithoutDrops(svc, account, buttons);
    var out := Localize(svc, account, buttons).value;
    forall i | 0 <= i < |buttons| ensures out[i] == buttons[i] {
      assert ResolvesTo(svc, account, buttons[i], out[i]);
      match buttons[i]
      case Leaf(f) =>
        StableLeafResolves(svc, account, f);
      case Parent(_, sub) =>
        forall j | 0 <= j < |sub| ensures out[i].sub[j] == sub[j] {
          StableLeafResolves(svc, account, sub[j]);
        }
        assert out[i].sub == sub;
    }
    assert out == buttons;
  }

  /** A menu of one parent with one child that resolves to `out` pulls back as that parent over `out`. */
  lemma LocalizeSingleChild(svc: Services, account: AccountId, attrs: Fields, leaf: Fields, out: Fields)
    requires ResolveLeaf(svc, account, leaf) == Ok(Some(out))
    ensures Localize(svc, account, [Parent(attrs, [leaf])]) == Ok([Parent(attrs, [out])])
  {
    var node := Parent(attrs, [leaf]);
    assert node.sub[0] == leaf;
    var analysed := AnalyseRemoteMenu(svc, account, node).value.value;
    assert analysed.sub == [Some(out)];
    var all := AnalysedAll(svc, account, [node]).value;
    assert all == [Some(analysed)];
    assert Somes(analysed.sub) == [out];
    assert Compact(all) == [Parent(attrs, [out])];
  }

  /** A leaf holding only a text `type` and a `value` resolves to a click holding only the derived key. */
  lemma TextLeafResolves(svc: Services, account: AccountId, leaf: Fields)
    requires leaf.Keys == {"type", "value"} && leaf["type"] == Str(WireName(Text))
    ensures ResolveLeaf(svc, account, leaf)
         == Ok(Some(map["type" := Str("click"), "key" := Str(svc.makeMediaId(svc.saveText(account, leaf["value"])))]))
  {
    KindOfWireName(Text);
    assert LeafKind(leaf) == Ok(Text);
    var clicked := map["type" := Str("click"), "key" := Str(svc.makeMediaId(svc.saveText(account, leaf["value"])))];
    var res := ResolveText(svc, account, leaf).value;
    assert res.Keys == {"type", "key"} == clicked.Keys;
    assert res == clicked;
  }

  /**
    The text scenario: a parent "A" whose only child is a text button with
    value "hello" becomes a parent "A" whose only child is a click button
    keyed by the event service from the saved text.
   */
  lemma TextScenario(svc: Services, account: AccountId)
    ensures Localize(svc, account, [Parent(map["name" := Str("A")], [map["type" := Str("text"), "value" := Str("hello")]])])
         == Ok([Parent(map["name" := Str("A")],
                       [map["type" := Str("click"),
                            "key" := Str(svc.makeMediaId(svc.saveText(account, Str("hello"))))]])])
  {
    var leaf := map["type" := Str("text"), "value" := Str("hello")];
    TextLeafResolves(svc, account, leaf);
    LocalizeSingleChild(svc, account, map["name" := Str("A")], leaf,
                        map["type" := Str("click"), "key" := Str(svc.makeMediaId(svc.saveText(account, Str("hello"))))]);
  }

  // ---------------------------------------------------------------------
  // Editor input: event-backed nodes
  // ---------------------------------------------------------------------

  /**
    `makeMenuEvent`: every leaf gains a `key` and loses its `value`.  Text
    and media leaves become clicks whose key the event service makes from
    the value; every other leaf, links included, takes the value itself as
    its key.  The source declares an account parameter but calls this with
    the button alone; the account is passed explicitly here.
   */
  function MakeMenuEvent(svc: Services, account: AccountId, menu: Fields): (r: Result<Fields>)
    ensures "type" !in menu ==> r == Err(MissingField("type"))
    ensures "type" in menu && "value" !in menu ==> r == Err(MissingField("value"))
    ensures r.Ok? <==> "type" in menu && "value" in menu
    ensures r.Ok? ==> r.value.Keys == menu.Keys - {"value"} + {"key"}
    ensures r.Ok? ==> KeepsOthers(menu, r.value, {"type", "key", "value"})
    ensures r.Ok? && menu["type"] == Str("text") ==>
              r.value["type"] == Str("click") && r.value["key"] == Str(svc.makeText(account, menu["value"]))
    ensures r.Ok? && menu["type"] == Str("media") ==>
              r.value["type"] == Str("click") && r.value["key"] == Str(svc.makeMediaEvent(account, menu["value"]))
    ensures r.Ok? && menu["type"] != Str("text") && menu["type"] != Str("media") ==>
              r.value["type"] == menu["type"] && r.value["key"] == menu["value"]
  {
    match Get(menu, "type")
    case Err(e) => Err(e)
    case Ok(t) =>
      match Get(menu, "value")
      case Err(e) => Err(e)
      case Ok(v) =>
        var rest := menu - {"value"};
        if t == Str("text") then
          Ok(rest["type" := Str("click")]["key" := Str(svc.makeText(account, v))])
        else if t == Str("media") then
          Ok(rest["type" := Str("click")]["key" := Str(svc.makeMediaEvent(account, v))])
        else if t == Str("view") then
          Ok(rest["key" := v])
        else
          Ok(rest["key" := v])
  }

  /** One top-level button of the editor's menu: a parent's children go through `makeMenuEvent`, as does a leaf. */
  function AnalyseMenuNode(svc: Services, account: AccountId, node: MenuNode): (r: Result<MenuNode>)
    ensures r.Ok? <==> Translatable(node)
    ensures r.Ok? ==> EventBacked(svc, account, node, r.value)
  {
    match node
    case Leaf(f) =>
      (match MakeMenuEvent(svc, account, f)
       case Err(e) => Err(e)
       case Ok(g) => Ok(Leaf(g)))
    case Parent(attrs, sub) =>
      match MapResult(f => MakeMenuEvent(svc, account, f), sub)
      case Err(e) => Err(e)
      case Ok(s) => Ok(Parent(attrs, s))
  }

  /** `after` is `before` with each leaf replaced by its `makeMenuEvent` result and nothing else changed. */
  predicate EventBacked(svc: Services, account: AccountId, before: MenuNode, after: MenuNode)
  {
    match before
    case Leaf(f) => after.Leaf? && MakeMenuEvent(svc, account, f) == Ok(after.attrs)
    case Parent(attrs, sub) =>
      && after.Parent?
      && after.attrs == attrs
      && |after.sub| == |sub|
      && forall j :: 0 <= j < |sub| ==> MakeMenuEvent(svc, account, sub[j]) == Ok(after.sub[j])
  }

  /** Every leaf of the node has the fields `makeMenuEvent` reads. */
  predicate Translatable(node: MenuNode)
  {
    match node
    case Leaf(f) => "type" in f && "value" in f
    case Parent(_, sub) => forall j :: 0 <= j < |sub| ==> "type" in sub[j] && "value" in sub[j]
  }

  /**
    `analyseMenu`: the editor's menu keeps its length and order at every
    level; parents keep their fields and every leaf is made event-backed.
    It fails exactly when some leaf lacks a `type` or a `value`.
   */
  function AnalyseMenu(svc: Services, account: AccountId, menus: seq<MenuNode>): (r: Result<seq<MenuNode>>)
    ensures r.Ok? <==> forall i :: 0 <= i < |menus| ==> Translatable(menus[i])
    ensures r.Ok? ==> |r.value| == |menus|
    ensures r.Ok? ==> forall i :: 0 <= i < |menus| ==> EventBacked(svc, account, menus[i], r.value[i])
  {
    var f := (n: MenuNode) => AnalyseMenuNode(svc, account, n);
    var r := MapResult(f, menus);
    assert forall i :: 0 <= i < |menus| ==> (f(menus[i]).Ok? <==> Translatable(menus[i])) by {
      forall i | 0 <= i < |menus| ensures f(menus[i]).Ok? <==> Translatable(menus[i]) {
        if menus[i].Parent? {
          var sub := menus[i].sub;
          var g := (x: Fields) => MakeMenuEvent(svc, account, x);
          assert MapResult(g, sub).Ok? <==> forall j :: 0 <= j < |sub| ==> g(sub[j]).Ok?;
        }
      }
    }
    r
  }

  /** After `analyseMenu`, no leaf carries a `value` and every leaf carries a `key`. */
  lemma AnalysedMenuKeyed(svc: Services, account: AccountId, menus: seq<MenuNode>)
    requires forall i :: 0 <= i < |menus| ==> WellFormed(menus[i])
    requires AnalyseMenu(svc, account, menus).Ok?
    ensures forall i :: 0 <= i < |menus| ==>
              match AnalyseMenu(svc, account, menus).value[i]
              case Leaf(f) => "key" in f && "value" !in f
              case Parent(_, sub) => forall j :: 0 <= j < |sub| ==> "key" in sub[j] && "value" !in sub[j]
  {
    var out := AnalyseMenu(svc, account, menus).value;
    forall i | 0 <= i < |menus|
      ensures match out[i]
              case Leaf(f) => "key" in f && "value" !in f
              case Parent(_, sub) => forall j :: 0 <= j < |sub| ==> "key" in sub[j] && "value" !in sub[j]
    {
      assert EventBacked(svc, account, menus[i], out[i]);
      if menus[i].Parent? {
        forall j | 0 <= j < |out[i].sub| ensures "key" in out[i].sub[j] && "value" !in out[i].sub[j] {
          assert MakeMenuEvent(svc, account, menus[i].sub[j]) == Ok(out[i].sub[j]);
        }
      }
    }
  }

  // ---------------------------------------------------------------------
  // Push direction: the platform's menu items
  // ---------------------------------------------------------------------

  /** A button in the shape the platform client accepts. */
  datatype WechatButton = WechatButton(name: Value, typeName: Value, key: Value)

  /** A top-level platform item: a single button, or a named group of buttons. */
  datatype WechatItem = Single(button: WechatButton) | Nested(name: Value, buttons: seq<WechatButton>)

  /** `new MenuItem($m['name'], $m['type'], $m['key'])`: the three fields are read in that order. */
  function RenderButton(f: Fields): (r: Result<WechatButton>)
    ensures r.Ok? <==> "name" in f && "type" in f && "key" in f
    ensures r.Ok? ==> r.value == WechatButton(f["name"], f["type"], f["key"])
    ensures "name" !in f ==> r == Err(MissingField("name"))
    ensures "name" in f && "type" !in f ==> r == Err(MissingField("type"))
    ensures "name" in f && "type" in f && "key" !in f ==> r == Err(MissingField("key"))
  {
    if "name" !in f then Err(MissingField("name"))
    else if "type" !in f then Err(MissingField("type"))
    else if "key" !in f then Err(MissingField("key"))
    else Ok(WechatButton(f["name"], f["type"], f["key"]))
  }

  /** One top-level node in the platform's shape: a parent becomes a group named after it. */
  function Render(m: MenuNode): (r: Result<WechatItem>)
    ensures m.Leaf? ==> (r.Ok? <==> RenderButton(m.attrs).Ok?)
    ensures m.Leaf? && r.Ok? ==> r.value == Single(RenderButton(m.attrs).value)
    ensures m.Parent? ==>
              (r.Ok? <==> "name" in m.attrs && forall j :: 0 <= j < |m.sub| ==> RenderButton(m.sub[j]).Ok?)
    ensures m.Parent? && r.Ok? ==>
              && r.value.Nested?
              && r.value.name == m.attrs["name"]
              && |r.value.buttons| == |m.sub|
              && forall j :: 0 <= j < |m.sub| ==> r.value.buttons[j] == RenderButton(m.sub[j]).value
  {
    match m
    case Leaf(f) =>
      (match RenderButton(f)
       case Err(e) => Err(e)
       case Ok(b) => Ok(Single(b)))
    case Parent(attrs, sub) =>
      if "name" !in attrs then Err(MissingField("name"))
      else
        match MapResult(RenderButton, sub)
        case Err(e) => Err(e)
        case Ok(bs) => Ok(Nested(attrs["name"], bs))
  }

  /** The inner loop of `formatToWechat`: one platform button per child, in order. */
  method RenderButtons(sub: seq<Fields>) returns (r: Result<seq<WechatButton>>)
    ensures r == MapResult(RenderButton, sub)
  {
    var buttons: seq<WechatButton> := [];
    var j := 0;
    while j < |sub|
      invariant 0 <= j <= |sub|
      invariant MapResult(RenderButton, sub[..j]) == Ok(buttons)
    {
      var b := RenderButton(sub[j]);
      if b.Err? {
        MapResultFirstError(RenderButton, sub, j);
        return Err(b.error);
      }
      MapResultSnoc(RenderButton, sub, j);
      buttons := buttons + [b.value];
      j := j + 1;
    }
    assert sub[..j] == sub;
    r := Ok(buttons);
  }

  /**
    `formatToWechat`: one item per input node, in input order; a parent's
    children go through the inner loop.
   */
  method FormatToWechat(menus: seq<MenuNode>) returns (r: Result<seq<WechatItem>>)
    ensures r == MapResult(Render, menus)
    ensures r.Ok? ==> |r.value| == |menus|
    ensures r.Ok? ==> forall i :: 0 <= i < |menus| ==> (menus[i].Parent? <==> r.value[i].Nested?)
  {
    var items: seq<WechatItem> := [];
    var i := 0;
    while i < |menus|
      invariant 0 <= i <= |menus|
      invariant MapResult(Render, menus[..i]) == Ok(items)
    {
      var item: Result<WechatItem>;
      match menus[i] {
      case Parent(attrs, sub) =>
        if "name" !in attrs {
          item := Err(MissingField("name"));
        } else {
          var buttons := RenderButtons(sub);
          item := if buttons.Err? then Err(buttons.error) else Ok(Nested(attrs["name"], buttons.value));
        }
      case Leaf(f) =>
        var b := RenderButton(f);
        item := if b.Err? then Err(b.error) else Ok(Single(b.value));
      }
      assert item == Render(menus[i]);
      if item.Err? {
        MapResultFirstError(Render, menus, i);
        return Err(item.error);
      }
      items := items + [item.value];
      MapResultSnoc(Render, menus, i);
      i := i + 1;
    }
    assert menus[..i] == menus;
    r := Ok(items);
  }

  /** The key the platform gets back for a leaf that was pulled: a link's URL, otherwise its key. */
  function PushedKey(f: Fields): Value
    requires ("url" in f && LeafKind(f) == Ok(View)) || "key" in f
  {
    if "url" in f && LeafKind(f) == Ok(View) then f["url"] else f["key"]
  }

  /** A leaf that survives a pull with the fields a push needs. */
  predicate RoundTripLeaf(f: Fields)
  {
    && "name" in f && "type" in f
    && ((StableLeaf(f) && "key" in f) || (LeafKind(f) == Ok(View) && "url" in f))
  }

  predicate RoundTripNode(node: MenuNode)
  {
    match node
    case Leaf(f) => RoundTripLeaf(f)
    case Parent(attrs, sub) => "name" in attrs && forall j :: 0 <= j < |sub| ==> RoundTripLeaf(sub[j])
  }

  /** The platform item a pulled node pushes back as. */
  predicate PushedAs(node: MenuNode, item: WechatItem)
    requires RoundTripNode(node)
  {
    match node
    case Leaf(f) => item == Single(WechatButton(f["name"], f["type"], PushedKey(f)))
    case Parent(attrs, sub) =>
      && item.Nested?
      && item.name == attrs["name"]
      && |item.buttons| == |sub|
      && forall j :: 0 <= j < |sub| ==>
           item.buttons[j] == WechatButton(sub[j]["name"], sub[j]["type"], PushedKey(sub[j]))
  }

  /** A round-trip leaf resolves to itself, or for a link to itself with the URL moved to the key. */
  lemma RoundTripLeafResolves(svc: Services, account: AccountId, f: Fields)
    requires RoundTripLeaf(f)
    ensures ResolveLeaf(svc, account, f).Ok? && ResolveLeaf(svc, account, f).value.Some?
    ensures RenderButton(ResolveLeaf(svc, account, f).value.value)
         == Ok(WechatButton(f["name"], f["type"], PushedKey(f)))
  {
  }

  /**
    Pull then push: a menu of links, interactive kinds and owned clicks,
    pulled and then formatted for the platform, gives one item per button
    with the same names, types and nesting; links carry their URL as key.
   */
  lemma PullPushRoundTrip(svc: Services, account: AccountId, buttons: seq<MenuNode>)
    requires forall i :: 0 <= i < |buttons| ==> WellFormed(buttons[i]) && RoundTripNode(buttons[i])
    ensures Localize(svc, account, buttons).Ok?
    ensures MapResult(Render, Localize(svc, account, buttons).value).Ok?
    ensures |MapResult(Render, Localize(svc, account, buttons).value).value| == |buttons|
    ensures forall i :: 0 <= i < |buttons| ==>
              PushedAs(buttons[i], MapResult(Render, Localize(svc, account, buttons).value).value[i])
  {
    forall i | 0 <= i < |buttons| ensures NothingDropped(svc, account, buttons[i]) {
      if buttons[i].Parent? {
        forall j | 0 <= j < |buttons[i].sub|
          ensures ResolveLeaf(svc, account, buttons[i].sub[j]).Ok? && ResolveLeaf(svc, account, buttons[i].sub[j]).value.Some?
        {
          RoundTripLeafResolves(svc, account, buttons[i].sub[j]);
        }
      } else {
        RoundTripLeafResolves(svc, account, buttons[i].attrs);
      }
    }
    LocalizeWithoutDrops(svc, account, buttons);
    var out := Localize(svc, account, buttons).value;
    forall i | 0 <= i < |out| ensures Render(out[i]).Ok? && PushedAs(buttons[i], Render(out[i]).value) {
      assert ResolvesTo(svc, account, buttons[i], out[i]);
      if buttons[i].Parent? {
        forall j | 0 <= j < |buttons[i].sub|
          ensures RenderButton(out[i].sub[j]) == Ok(WechatButton(buttons[i].sub[j]["name"], buttons[i].sub[j]["type"], PushedKey(buttons[i].sub[j])))
        {
          RoundTripLeafResolves(svc, account, buttons[i].sub[j]);
        }
      } else {
        RoundTripLeafResolves(svc, account, buttons[i].attrs);
      }
    }
  }

  // ---------------------------------------------------------------------
  // Tearing down the stored menu
  // ---------------------------------------------------------------------

  /** A stored menu row: its type and its key (the other columns are not read). */
  datatype MenuRecord = MenuRecord(typeName: string, key: string)

  /** The keys of the click rows, in stored order. */
  function ClickKeys(rows: seq<MenuRecord>): (keys: seq<string>)
    ensures |keys| <= |rows|
  {
    if rows == [] then []
    else (if rows[0].typeName == "click" then [rows[0].key] else []) + ClickKeys(rows[1..])
  }

  /** A key is among the click keys exactly when some click row carries it. */
  lemma {:induction false} ClickKeysMembers(rows: seq<MenuRecord>)
    ensures forall k :: k in ClickKeys(rows) <==>
              exists i :: 0 <= i < |rows| && rows[i].typeName == "click" && rows[i].key == k
  {
    if rows != [] {
      ClickKeysMembers(rows[1..]);
      forall k
        ensures k in ClickKeys(rows) <==>
                exists i :: 0 <= i < |rows| && rows[i].typeName == "click" && rows[i].key == k
      {
        if k in ClickKeys(rows[1..]) {
          var i :| 0 <= i < |rows[1..]| && rows[1..][i].typeName == "click" && rows[1..][i].key == k;
          assert rows[i + 1] == rows[1..][i];
        }
        if exists i :: 0 <= i < |rows| && rows[i].typeName == "click" && rows[i].key == k {
          var i :| 0 <= i < |rows| && rows[i].typeName == "click" && rows[i].key == k;
          if i > 0 {
            assert rows[1..][i - 1] == rows[i];
          }
        }
      }
    }
  }

  /** The click keys of a concatenation are those of each part, in order. */
  lemma {:induction false} ClickKeysAppend(a: seq<MenuRecord>, b: seq<MenuRecord>)
    ensures ClickKeys(a + b) == ClickKeys(a) + ClickKeys(b)
  {
    if a == [] {
      assert a + b == b;
    } else {
      var head := if a[0].typeName == "click" then [a[0].key] else [];
      assert (a + b)[0] == a[0];
      assert (a + b)[1..] == a[1..] + b;
      assert ClickKeys(a + b) == head + ClickKeys(a[1..] + b);
      ClickKeysAppend(a[1..], b);
      assert ClickKeys(a) == head + ClickKeys(a[1..]);
    }
  }

  /**
    The state of the menu service that `destroyOldMenu` touches: the menu
    repository's stored rows per account, and the keys handed so far to the
    event service's destroy-by-key operation, which is not defined in
    app/Services/Event.php and is recorded here as a call log.
   */
  class MenuService {
    var stored: map<AccountId, seq<MenuRecord>>
    var destroyedKeys: seq<string>

    constructor (stored: map<AccountId, seq<MenuRecord>>)
      ensures this.stored == stored && destroyedKeys == []
    {
      this.stored := stored;
      destroyedKeys := [];
    }

    /** The repository's `all($accountId)`: the account's rows, or none. */
    function StoredFor(account: AccountId): seq<MenuRecord>
      reads this
    {
      if account in stored then stored[account] else []
    }

    /**
      `destroyOldMenu`: destroys the event of every stored click row, in
      stored order, then deletes the account's rows.  Other accounts are
      untouched.
     */
    method DestroyOldMenu(account: AccountId)
      modifies this
      ensures destroyedKeys == old(destroyedKeys) + ClickKeys(old(StoredFor(account)))
      ensures stored == old(stored) - {account}
    {
      var rows := StoredFor(account);
      var i := 0;
      while i < |rows|
        invariant 0 <= i <= |rows|
        invariant stored == old(stored)
        invariant destroyedKeys == old(destroyedKeys) + ClickKeys(rows[..i])
      {
        ClickKeysAppend(rows[..i], [rows[i]]);
        assert rows[..i + 1] == rows[..i] + [rows[i]];
        if rows[i].typeName == "click" {
          destroyedKeys := destroyedKeys + [rows[i].key];
        }
        i := i + 1;
      }
      assert rows[..i] == rows;
      stored := stored - {account};
    }
  }
}
