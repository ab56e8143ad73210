# WeChat menu translation engine: a Dafny model

This project models the core of a WeChat official-account manager: the engine
that translates an account's custom menu between the platform's shape and the
application's local shape.

- **Pull.** The platform returns a two-level button list. Every leaf goes to
  the resolver its `type` names. Text and news leaves are saved as material
  and become `click` buttons keyed by the event service. Links move their URL
  into `key`. Clicks are kept only when `isOwnEvent` accepts their key. As
  written, that rejects every key `buildEventKey` makes (see below).
  Media-id, image, voice, video and view-limited leaves are dropped. The six
  interactive kinds (photo pickers, location, QR scans) pass through unchanged.
  A compaction pass then removes the dropped entries. A parent whose children
  were all dropped stays, with no children.
- **Editor input.** Every leaf of the editor's menu gains a `key` and loses
  its `value`. Text and media leaves become event-backed clicks.
- **Push.** The local tree becomes one platform item per top-level button,
  in order. Each item holds a button's `(name, type, key)`, or a named group
  of such buttons for a parent.
- **Teardown.** Before a pull, the event of every stored click row is
  destroyed, in stored order. Then the account's rows are deleted.
- **Event keys.** Keys are the namespace `XN_EVENT_` followed by an
  upper-cased unique suffix. `isOwnEvent` is the ownership test.

Files:

- `wrappers.dfy` (module `Wrappers`): `Option`.
- `event.dfy` (module `Event`): the event helpers of `app/Services/Event.php`.
- `menu.dfy` (module `Menu`): the engine of `app/Services/Menu.php`.

A button, a PHP associative array, is a `map<string, Value>`. A top-level
button is a `Parent` with a list of children, or a `Leaf`. PHP notices that
the framework's error handler turns into exceptions become `Err` results. A
missing array index and an array used where a string is needed are such
notices. A call to a method that does not exist also raises in the code. The
model departs from that for the collaborators listed under "Where the model
departs from the code".

Resolver dispatch follows `camel_case('resolve_'.$type.'_menu')` and PHP's
case-insensitive method lookup. The type string loses its `-`, `_` and space
characters and is lower-cased. The result is then compared with each
resolver's stem.

The `array_map` callbacks run from left to right, and the first failure
aborts the map (`MapResult`). `filterEmptyMenu` and `formatToWechat` are
methods with loops. Each is proved equal to a specification function:
`Compact` for the first, `MapResult(Render, ·)` for the second.
`destroyOldMenu` is a method of the class `MenuService`. That class holds
the stored rows per account and a log of the keys handed to the event
service's destroy operation.

## Where the code and the intended behaviour differ

The model follows the code in each of these cases.

Depth is a separate matter. A menu nested deeper than two levels is meant to
be rejected, and the code recurses into it without any check. The model
follows neither: it cannot represent a third level at all (see "Left out").

- `isOwnEvent` returns `strpos($name, 'XN_EVENT_')`, and PHP reads position 0
  as false. So a key that starts with the namespace is not owned. This
  includes every key `buildEventKey` makes (`Event.BuiltKeyNotOwned`). A key
  that holds the namespace only later on is owned. The intended ownership
  test is that the key starts with the namespace (`Event.HasEventPrefix`).
  As written, the click resolver therefore drops the application's own
  clicks (`Menu.BuiltKeyClickDropped`). It keeps clicks whose key holds the
  namespace only after its start.
- `destroyOldMenu` hands every stored click key to the destroy operation,
  including keys without the namespace prefix. Skipping those is left to
  that operation.
- The platform type names differ from the intended names in two places. The
  media-id resolver handles `media_id`, and the image resolver handles
  `img`.
- On push, the third field of a platform item is the node's `key`. For a
  pulled link, that is the URL.
- `filterEmptyMenu` cleans the top level and one level of children
  (app/Services/Menu.php:121-122). A dropped grandchild would stay in the
  tree as `false`. The model has no third level, so this does not arise.

## Where the model departs from the code

- `resolveTextMenu` is declared with `($account, $menu)`
  (app/Services/Menu.php:191). It is called with the button alone
  (app/Services/Menu.php:141). `makeMenuEvent` is declared with
  `($accountId, $menu)` (app/Services/Menu.php:425) and called with the
  button alone (app/Services/Menu.php:160). As written, each of these calls
  raises a missing-argument error. So every text leaf makes a pull fail, and
  every editor leaf makes `analyseMenu` fail. The model describes the
  two-argument calls that the declarations intend, and passes the account
  explicitly.
- `makeMediaId`, `makeText` and `distoryByEventKey` are called
  (app/Services/Menu.php:197, 242, 429, 432, 456) but not defined by the
  event service in app/Services/Event.php. As written, these calls raise.
  The model treats them as collaborators that succeed.

## Model

| member | source | states |
|---|---|---|
| Event.StrPos | app/Services/Event.php:41 | for a non-empty needle, `strpos` finds it exactly when it occurs, at its first occurrence |
| Event.IsOwnEvent | app/Services/Event.php:39-42 | a name is owned exactly when the namespace occurs in it, but not at index 0 |
| Event.BuiltKeyNotOwned | app/Services/Event.php:39-64 | every key `buildEventKey` makes has the namespace prefix, `strpos` finds it at 0, and `isOwnEvent` rejects it |
| Event.OwnedKeysLackPrefix | app/Services/Event.php:39-42 | an owned name never starts with the namespace |
| Event.OwnedWhenPrefixLater | app/Services/Event.php:39-42 | the namespace after a non-empty head that does not itself start with it makes the name owned |
| Event.NoUpperCaseNeverOwned | app/Services/Event.php:39-42 | the match is case-sensitive: a name with no upper-case letters is never owned |
| Event.LowerCaseNamespaceNotOwned | app/Services/Event.php:39-42 | `xn_event_` followed by any suffix without the namespace, upper-cased or not, is never owned |
| Event.BuildEventKey | app/Services/Event.php:61-64 | the key is 9 characters longer than the suffix, starts with the namespace, and holds the suffix upper-cased character by character |
| Event.BuildText | app/Services/Event.php:51-54 | the event id is the repository's `storeText` result, untouched |
| Menu.MapResult | app/Services/Menu.php:104 | the map succeeds exactly when every callback does, result i is callback i's, and a failure is the first failing callback's |
| Menu.KindOf | app/Services/Menu.php:141 | a type string reaches resolver k exactly when its normal form is k's stem; otherwise no resolver matches |
| Menu.KindOfWireName | app/Services/Menu.php:138-142 | each platform type name (`media_id`, `pic_photo_or_album`, `scancode_waitmsg`, ...) reaches its own resolver |
| Menu.JoinDispatch | app/Services/Menu.php:141 | `camel_case` drops the `_` between two words, so joining words with `_` joins their dispatch names |
| Menu.DispatchIgnoresCase | app/Services/Menu.php:141 | the normal form used for method lookup is the same for a type string and its upper-cased form |
| Menu.KindOfIgnoresCase | app/Services/Menu.php:141 | upper-casing a type string does not change the resolver it reaches |
| Menu.LeafKind | app/Services/Menu.php:141 | a leaf reaches a resolver exactly when its `type` is a string naming one; an unknown name fails with that name |
| Menu.ResolveText | app/Services/Menu.php:191-202 | a text leaf becomes a click keyed from the saved text, loses `value` and keeps every other field; a leaf without `value` fails |
| Menu.ResolveNews | app/Services/Menu.php:230-249 | a news leaf becomes a click keyed from the saved articles and loses `value` and `news_info`; a missing or malformed `news_info` fails |
| Menu.ResolveView | app/Services/Menu.php:294-301 | the URL moves from `url` to `key` and nothing else changes; a link without `url` fails |
| Menu.ResolveClick | app/Services/Menu.php:310-317 | a click is kept unchanged exactly when its key passes `isOwnEvent`, else dropped; a missing key fails |
| Menu.ResolveLeaf | app/Services/Menu.php:204-415 | the media-id, image, voice, video and view-limited kinds are dropped, the six interactive kinds pass through unchanged, text/news/view/click go to their resolvers, and a dispatch failure is passed on |
| Menu.ResolvedLeafKept | app/Services/Menu.php:191-415 | a leaf that survives resolution has a kind that is never dropped |
| Menu.StableLeafResolves | app/Services/Menu.php:310-389 | interactive leaves and clicks with owned keys come back unchanged |
| Menu.AnalyseRemoteMenu | app/Services/Menu.php:136-145 | a parent keeps its fields and gets its children resolved one by one, failing when any child fails; a leaf gets its resolver's answer |
| Menu.Somes | app/Services/Menu.php:121-122 | `array_filter` keeps exactly the entries that were not dropped |
| Menu.SomesAppend | app/Services/Menu.php:121 | filtering keeps the order of the kept entries |
| Menu.Compact | app/Services/Menu.php:114-127 | the result holds exactly the cleaned versions of the entries that were not dropped, and is no longer than the input |
| Menu.CompactAppend | app/Services/Menu.php:114-127 | compaction keeps the order of the surviving top-level entries |
| Menu.FilterEmptyMenu | app/Services/Menu.php:114-127 | the loop computes `Compact` of its input |
| Menu.Localize | app/Services/Menu.php:96-105 | an empty button list gives an empty menu; pulling succeeds exactly when every button analyses; the result is no longer than the input and is the compaction (`Compact`) of the analysed buttons, so dropped entries go and survivors keep their order |
| Menu.AnalysedAll | app/Services/Menu.php:104 | every button is analysed in place, and the map fails exactly when some analysis fails |
| Menu.LocalizeAppend | app/Services/Menu.php:96-105 | pulling a concatenation gives the concatenated pulls |
| Menu.LocalizeKeepsEmptyParents | app/Services/Menu.php:114-127 | a parent whose children are all dropped stays in the pulled menu with an empty child list |
| Menu.LocalizedLeavesKept | app/Services/Menu.php:96-145 | no leaf of a pulled menu, at either level, has a dropped kind |
| Menu.LocalizeWithoutDrops | app/Services/Menu.php:96-145 | with nothing dropped, the pulled menu has the same shape and each leaf is replaced by its resolution |
| Menu.LocalizeIdentity | app/Services/Menu.php:96-145 | a menu of interactive kinds and owned clicks, with no leaf carrying `sub_button`, is pulled back exactly as it is |
| Menu.RejectedClickDropped | app/Services/Menu.php:96-127 | a top-level click whose key `isOwnEvent` rejects does not reach the local menu |
| Menu.BuiltKeyClickDropped | app/Services/Menu.php:310-317 | a click keyed by `buildEventKey` does not reach the local menu, because `isOwnEvent` rejects that key |
| Menu.LocalizeOneParent | app/Services/Menu.php:96-145 | a parent whose children all resolve pulls back as that parent over the kept resolutions, in order |
| Menu.LocalizeDropsChild | app/Services/Menu.php:114-145 | a child its resolver drops is removed from its parent, and siblings that resolve to themselves stay on both sides, in order |
| Menu.LocalizeDropsRejectedChild | app/Services/Menu.php:96-145 | a child click whose key `isOwnEvent` rejects is removed from its parent, and the stable siblings on both sides stay, in order |
| Menu.LocalizeSingleChild | app/Services/Menu.php:96-145 | a parent with one child pulls back as that parent over the child's resolution |
| Menu.TextLeafResolves | app/Services/Menu.php:191-202 | a leaf with only a text type and a value resolves to a click holding only the derived key |
| Menu.TextScenario | app/Services/Menu.php:96-202 | parent "A" over a text child "hello" pulls back as parent "A" over a click keyed from the saved "hello" |
| Menu.MakeMenuEvent | app/Services/Menu.php:425-442 | text and media leaves become clicks keyed by the event service; any other leaf keeps its type and takes its value as key; `value` goes, `key` comes, other fields stay; a missing type or value fails |
| Menu.AnalyseMenuNode | app/Services/Menu.php:156-165 | one editor button translates exactly when each of its leaves has a type and a value; the result keeps a parent's fields and replaces each leaf by its `makeMenuEvent` result |
| Menu.AnalyseMenu | app/Services/Menu.php:154-168 | the editor's menu keeps its length and order, parents keep their fields, every leaf goes through `makeMenuEvent`, and it fails exactly when some leaf lacks a type or value |
| Menu.AnalysedMenuKeyed | app/Services/Menu.php:154-168 | after editor translation every leaf has a `key` and no `value`, for a menu in which no leaf carries `sub_button` |
| Menu.RenderButton | app/Services/Menu.php:497 | a platform button carries the node's name, type and key; a missing field fails, in the order name, type, key |
| Menu.Render | app/Services/Menu.php:493-503 | a parent becomes a group named after it with one button per child, in order; a leaf becomes a single button |
| Menu.RenderButtons | app/Services/Menu.php:496-498 | the inner loop computes `MapResult(RenderButton, ·)` of the children |
| Menu.FormatToWechat | app/Services/Menu.php:488-507 | the loop computes `MapResult(Render, ·)`: one item per node, in order, a group exactly for each parent |
| Menu.RoundTripLeafResolves | app/Services/Menu.php:294-317 | a round-trip leaf survives the pull and pushes as its name, type and key, or its URL for a link |
| Menu.PullPushRoundTrip | app/Services/Menu.php:488-507 | pulling and then pushing a menu of links, interactive kinds and owned clicks, with no leaf carrying `sub_button`, gives one item per button with the same names, types and nesting |
| Menu.ClickKeysMembers | app/Services/Menu.php:453-459 | a key is destroyed exactly when some stored click row carries it |
| Menu.ClickKeysAppend | app/Services/Menu.php:453-459 | click keys are destroyed in stored order |
| Menu.MenuService.DestroyOldMenu | app/Services/Menu.php:449-462 | the destroy log grows by the account's click keys in stored order, and then the account's rows, and only those, are deleted |

## Left out

- `getFromRemote` and `saveToRemote` call the platform over the network, so they are left out. `saveToRemote` also holds unresolved merge-conflict markers (app/Services/Menu.php:470-474).
- `syncToLocal` and `saveToLocal` only chain the operations above with repository writes, so they are left out.
- `localize` first unwraps `selfmenu_info.button` from the platform response. The model starts from the button list.
- A leaf that carries a `sub_button` field is left out. The code tells a parent from a leaf by that field (app/Services/Menu.php:121-122, 138, 157, 493), the model by constructor. So the code would push such a leaf as an empty group, keep its `value` in the editor, and raise on pull when the field is not an array. `Menu.LocalizeIdentity`, `Menu.AnalysedMenuKeyed` and `Menu.PullPushRoundTrip` require `Menu.WellFormed`, which rules such leaves out.
- Menus deeper than two levels are left out. `analyseRemoteMenu` and `analyseMenu` recurse, but the platform allows two levels. `filterEmptyMenu` cleans only one level of children (app/Services/Menu.php:121-122), so a dropped grandchild would stay as `false`.
- The one-argument calls to `resolveTextMenu` and `makeMenuEvent` raise as written (app/Services/Menu.php:141, 160). The model gives the declared two-argument behaviour instead. `Menu.ResolveText`, `Menu.MakeMenuEvent`, `Menu.AnalyseMenu` and `Menu.TextScenario` describe that behaviour.
- The calls to the undefined `makeMediaId`, `makeText` and `distoryByEventKey` raise as written. The model treats them as succeeding.
- PHP arrays keep their keys after `unset` and `array_filter`. The model renumbers, so gaps in indices are not modelled.
- The material service (`saveText`, `saveArticle`) and the event service's `makeMediaId` and `makeText` are modelled as pure functions in `Services`. The stored content is not modelled. `makeMediaId` and `makeText` are not defined in app/Services/Event.php.
- The event service's `distoryByEventKey` is not defined in app/Services/Event.php. It is recorded as a log of keys, and what it deletes is not modelled.
- The extra `saveArticle` arguments (null, created-from-WeChat, not editable) are not modelled.
- `resolveNewsMenu` reads the current account from a global. The model takes it as a parameter.
- The code after the first `return false` in `resolveMediaIdMenu` and `resolveViewLimitedMenu` never runs, so it is not modelled.
- PHP's loose `==` is modelled as string equality. Field values are strings or article lists, never numbers.
- Event.BuildEventKey: `uniqid()` depends on the clock. Its suffix is a parameter, and `strtoupper` is modelled for ASCII letters only.
- The event repository, the menu repository, the models, the routes and the controllers are not part of this model.
