# Everest Discord presence broadcaster, modelled in Dafny

Everest (the Celeste mod loader) shows what the player is doing in Discord.
`Everest.Discord` is a game component that the game polls once per frame. It
does three things:

- It finds the local Discord client by trying the WebSocket ports 6463 to 6472
  one after the other. When every port has failed, it disposes itself.
- It keeps one pending presence (the activity to show) and a dirty flag. Each
  game event overwrites the pending presence. A frame sends the pending presence
  only when no earlier send is still in flight, and it clears the flag when it
  issues the send.
- It builds the presence from the session and the user's settings. Outside a
  level that is "In Menus". Inside a level it is the map, side, room, berries,
  deaths and start time, plus an icon. The icon URL is resolved through a
  per-instance cache and a set of icon hashes known to the icon server.

The model has one module per concern:

- `Optional`: an `Option` type for the source's nullable values.
- `Text`: decimal rendering of an `int` as string concatenation does it, with
  its parser. Also ASCII lower-casing, joining fragments with a separator, and
  finding the first space.
- `Hex`: the icon hash string. It is built in three steps: `BitConverter.ToString`,
  then removing the dashes, then lower-casing. The model proves that the three
  steps together give plain lower-case hex, and that hex decodes back to the hash.
- `Icons`: `GetMapIconURL` as a pure function, and the cache lookup it sits
  behind.
- `Presence`: the activity value and the functions that define what it holds in
  the menus and in a level.
- `Discord`: the `Broadcaster` class and the `Registry` class. `Broadcaster`
  holds the fields that the source updates in place. `Registry` is the
  process-wide `Instance` slot. The module also has client methods that drive
  the class through a scan with no client listening, two requests between
  sends, a request held back while another send is in flight, a double icon
  lookup, repeated level loads and the create/dispose/create lifecycle.

Inputs that the model takes as parameters:

- Each frame, `Update` is told three things: whether the connect task has
  completed, whether the socket is open, and whether the last send task has
  completed.
- The asset store (`Content.Map`), the checksum function and the known-hash set
  are an `IconEnv` value.
- The localised, emoji-filtered map and level-set names are fields of `Area`.
- The clock is the `now` argument of `OnLoadLevel`.
- The settings and the map catalogue (`AreaData.Areas`) are part of `World`.

Ghost fields record what the source does but does not keep:

- `sent`: every activity handed to the socket.
- `failures`: the frames that found a failed connect attempt.
- `attempts`: the connect attempts issued.
- `disposeCount`: the calls to `Dispose`.
- `connectedNotices`: how often the one-time "connected" notice ran.
- `hashComputations`: how often an icon image was hashed.

The class invariant `Broadcaster.Valid` states the following:

- `MinPort <= currentPort <= MaxPort`.
- Before disposal, the port is `MinPort` plus the number of failed frames.
- The connect attempts are one more than the failed frames.
- The connected notice runs at most once, and only when the socket has been open.
- A send task exists exactly when something has been sent.
- The dirty flag implies that a pending presence exists.
- A clean flag means the pending presence is the last activity sent.

Three behaviours of the code that a reader might not expect, all modelled as written:

- A presence built in a level always carries `timestamps`, even when the start
  time is 0 (`Everest.Discord.cs:265-271`). It is not omitted for 0.
- The failed frame on the last port calls `Dispose` and then still issues one
  more connect attempt on that port (`Everest.Discord.cs:93-105`). `Connect` and
  `ScanWithoutClient` state this: ten failed frames take 11 attempts.
- The broadcaster can go back to scanning after it has connected. A frame that
  finds the socket no longer open calls `Connect(true)` and moves to the next
  port, whatever `WasConnected` says (`Everest.Discord.cs:145-148`).
  `WasConnected` is never reset to false.

## Model

| member | source | states |
|---|---|---|
| `Text.IntToStringRoundTrip` | Celeste.Mod.mm/Mod/Everest/Everest.Discord.cs:331-333 | the decimal text that `number + " "` writes reads back as the same number, so the count in a pluralized string is exact |
| `Text.IntToString` | Celeste.Mod.mm/Mod/Everest/Everest.Discord.cs:332 | a number renders as non-empty text with no space; the text is all digits exactly when the number is not negative |
| `Text.AsciiLower` | Celeste.Mod.mm/Mod/Everest/Everest.Discord.cs:316 | lower-casing keeps the length and maps each character on its own: an upper-case ASCII letter becomes the letter 32 code points further (its lower-case form, via `Text.LowerChar`), every other character is kept, and no upper-case letter is left |
| `Text.AsciiLowerIdempotent` | Celeste.Mod.mm/Mod/Everest/Everest.Discord.cs:316 | lower-casing an already lower-cased suffix changes nothing |
| `Presence.Pluralize` | Celeste.Mod.mm/Mod/Everest/Everest.Discord.cs:331-333 | the text up to the first space is the number's decimal text, and the text after it is the singular noun exactly when the number is 1, the plural otherwise |
| `Presence.PluralizeReadsBack` | Celeste.Mod.mm/Mod/Everest/Everest.Discord.cs:331-333 | in `Pluralize(n, s, p)`, the text before the first space parses to `n`; the text after it is `s` exactly when `n == 1` and `p` otherwise, including 0 |
| `Presence.PluralizeExamples` | Celeste.Mod.mm/Mod/Everest/Everest.Discord.cs:331-333 | "1 death", "0 deaths", "5 berries" |
| `Hex.BitConverterToString` | Celeste.Mod.mm/Mod/Everest/Everest.Discord.cs:322 | `BitConverter.ToString` writes three characters per byte less the trailing separator, and nothing for no bytes |
| `Hex.BitConverterDashes` | Celeste.Mod.mm/Mod/Everest/Everest.Discord.cs:322 | in that text the characters at positions 2, 5, 8, ... are the '-' separators and no other character is one |
| `Hex.RemoveDashes` | Celeste.Mod.mm/Mod/Everest/Everest.Discord.cs:322 | `Replace("-", "")` leaves no '-' and never makes the text longer |
| `Hex.ThreeStepsAreHexLower` | Celeste.Mod.mm/Mod/Everest/Everest.Discord.cs:322 | `BitConverter.ToString`, then `Replace("-", "")`, then `ToLowerInvariant` gives exactly the lower-case hex of the hash, two digits per byte |
| `Hex.HashString` | Celeste.Mod.mm/Mod/Everest/Everest.Discord.cs:322 | the hash string the resolver computes is exactly the lower-case hex of the hash, two digits per byte |
| `Hex.HexLowerRoundTrip` | Celeste.Mod.mm/Mod/Everest/Everest.Discord.cs:322 | decoding the hash string gives the hash back |
| `Hex.HashStringInjective` | Celeste.Mod.mm/Mod/Everest/Everest.Discord.cs:322-324 | two hashes with the same hash string are equal, so membership in the known set is membership of that one hash |
| `Icons.GetMapIconURL` | Celeste.Mod.mm/Mod/Everest/Everest.Discord.cs:313-329 | every resolved icon URL is under the icon server's base URL |
| `Icons.HashURLIff` | Celeste.Mod.mm/Mod/Everest/Everest.Discord.cs:313-329 | the resolver returns a hashed-icon URL if and only if the icon is not `areas/null`, has a local asset, and its hash string is in the known set; every other outcome is under the static-icon prefix |
| `Icons.KnownHashURL` | Celeste.Mod.mm/Mod/Everest/Everest.Discord.cs:321-324 | an icon with a local asset whose hash string is in the known set resolves to the hashed-icon URL of exactly that hash string |
| `Icons.HashURLNamesImage` | Celeste.Mod.mm/Mod/Everest/Everest.Discord.cs:321-324 | a hashed-icon URL that the resolver returns determines the image: any checksum whose hash string gives that URL is the checksum of the icon's own image bytes |
| `Icons.UnknownHashFallback` | Celeste.Mod.mm/Mod/Everest/Everest.Discord.cs:320-327 | an icon with a local asset whose hash string is not in the known set resolves to `static/everest.png` |
| `Icons.NullIconIsGeneric` | Celeste.Mod.mm/Mod/Everest/Everest.Discord.cs:314-319 | `areas/null` resolves to `static/null.png`, whatever the assets and the known hashes are |
| `Icons.MissingAssetFallback` | Celeste.Mod.mm/Mod/Everest/Everest.Discord.cs:314-319 | an icon without a local asset resolves to its lower-cased suffix after `areas/` when it has that prefix, and to `static/null.png` otherwise |
| `Icons.CachedIconURL` | Celeste.Mod.mm/Mod/Everest/Everest.Discord.cs:303-311 | a cached icon answers with its stored URL; whenever every cached URL is what the resolver would compute, the answer is the resolver's URL |
| `Icons.Remember` | Celeste.Mod.mm/Mod/Everest/Everest.Discord.cs:303-311 | after a lookup the icon is cached under the URL the lookup returned; existing entries are kept, and no other key is added |
| `Icons.RememberIdempotent` | Celeste.Mod.mm/Mod/Everest/Everest.Discord.cs:303-311 | a second lookup of the same icon returns the first lookup's URL and leaves the cache as it is, even if the known set or the assets changed in between |
| `Icons.RememberKeepsAgreement` | Celeste.Mod.mm/Mod/Everest/Everest.Discord.cs:303-311 | when every cached URL is what the resolver would compute now, the cached lookup returns exactly the resolver's URL, and the cache stays in agreement |
| `Presence.MenuPresence` | Celeste.Mod.mm/Mod/Everest/Everest.Discord.cs:206-218 | the menu presence has details "In Menus", no state and no timestamps; it has assets exactly when the show-icon setting is on |
| `Presence.ModeLetter` | Celeste.Mod.mm/Mod/Everest/Everest.Discord.cs:238 | the side letter is `'A' + mode`, one of A, B or C |
| `Presence.DetailsFragments` | Celeste.Mod.mm/Mod/Everest/Everest.Discord.cs:224-243 | details start with "Playing "; the side fragment appears exactly when show-map, show-side and a B-side are all present; the room fragment appears exactly when show-map and show-room are on, and then ends the line; with the map hidden the details are "Playing a map" |
| `Presence.StateLineFragments` | Celeste.Mod.mm/Mod/Everest/Everest.Discord.cs:253-263 | the state is empty exactly when neither counter is shown; it is one counter alone when only one is shown; it joins berries and deaths with the bar separator only when both are shown |
| `Presence.LevelPresence` | Celeste.Mod.mm/Mod/Everest/Everest.Discord.cs:265-280 | a level presence always carries the state line, the details and the start timestamp; it has assets, with the resolved icon, the caption and the Celeste badge, exactly when the show-icon setting is on |
| `Presence.Details` | Celeste.Mod.mm/Mod/Everest/Everest.Discord.cs:224-266 | the details begin with "Playing " and the map's display name when show-map is on, and are exactly "Playing a map" when it is off |
| `Presence.StateLine` | Celeste.Mod.mm/Mod/Everest/Everest.Discord.cs:253-263 | the state line is empty exactly when neither berries nor deaths are shown |
| `Presence.FullName` | Celeste.Mod.mm/Mod/Everest/Everest.Discord.cs:225-250 | the large icon's caption is "Everest" with the map hidden; otherwise it ends with the map's name, is that name alone when the map is the only one in its level set, and starts with the level set and the bar separator when it is not |
| `Presence.ForsakenCityExample` | Celeste.Mod.mm/Mod/Everest/Everest.Discord.cs:219-271 | with every setting on, Forsaken City A-side, room 1, 3 berries and 2 deaths gives the details "Playing Forsaken City", "A-Side", "Room 1" and the state "3 berries", "2 deaths", each joined by the bar separator, with the start time |
| `Presence.ForsakenCityDetails` | Celeste.Mod.mm/Mod/Everest/Everest.Discord.cs:237-242 | the details line of that example |
| `Presence.ForsakenCityState` | Celeste.Mod.mm/Mod/Everest/Everest.Discord.cs:253-263 | the state line of that example |
| `Discord.ServerURL` | Celeste.Mod.mm/Mod/Everest/Everest.Discord.cs:102 | every connect address starts with the local host, and the port's decimal text right after it reads back as the port |
| `Discord.ServerURLNamesPort` | Celeste.Mod.mm/Mod/Everest/Everest.Discord.cs:102 | two ports in the scanned range are contacted at different addresses |
| `Discord.IsOnlyMapInLevelSet` | Celeste.Mod.mm/Mod/Everest/Everest.Discord.cs:290-297 | the early-return scan answers false exactly when some other map (a different SID) has the same level set |
| `Discord.BuildState` | Celeste.Mod.mm/Mod/Everest/Everest.Discord.cs:253-263 | the in-place appends build exactly the enabled counters joined by the bar separator |
| `Discord.Registry.constructor` | Celeste.Mod.mm/Mod/Everest/Everest.Discord.cs:39 | the singleton slot starts empty |
| `Discord.Registry.CreateInstance` | Celeste.Mod.mm/Mod/Everest/Everest.Discord.cs:83-91 | a live instance is returned unchanged; otherwise a fresh broadcaster in its initial state is created and stored in the slot |
| `Discord.Broadcaster.constructor` | Celeste.Mod.mm/Mod/Everest/Everest.Discord.cs:108-125 | the broadcaster starts on `MinPort` with one connect attempt to that port's address; nothing is pending or sent, the start time is 0 and the cache is empty |
| `Discord.Broadcaster.Connect` | Celeste.Mod.mm/Mod/Everest/Everest.Discord.cs:93-106 | `Connect(true)` moves up one port only while below `MaxPort`; on `MaxPort` it disposes and leaves the port unchanged; every call issues one attempt on the current port's address |
| `Discord.Broadcaster.Dispose` | Celeste.Mod.mm/Mod/Everest/Everest.Discord.cs:127-139 | disposal marks the instance disposed and empties the singleton slot |
| `Discord.Broadcaster.Update` | Celeste.Mod.mm/Mod/Everest/Everest.Discord.cs:141-182 | a running connect changes nothing; a failed connect advances the port or gives up on the last one, with nothing else changed; an open socket sets `WasConnected`, with the notice only on the first such frame; a send in flight blocks a new send and keeps the flag and presence; otherwise a dirty presence is sent exactly once and the flag cleared; every frame sends at most one activity and keeps the invariant |
| `Discord.Broadcaster.ConnectFailed` | Celeste.Mod.mm/Mod/Everest/Everest.Discord.cs:145-148 | a failed attempt counts one failure and one new attempt at the current port's address; the port moves up below `MaxPort`, and on `MaxPort` the broadcaster is disposed, once |
| `Discord.Broadcaster.ConnectedFrame` | Celeste.Mod.mm/Mod/Everest/Everest.Discord.cs:149-180 | with the socket open the broadcaster is connected, with the notice on the first such frame only; a send in flight holds everything back; otherwise a dirty presence is sent exactly once and the flag cleared; the invariant is kept |
| `Discord.Broadcaster.OnGameExit` | Celeste.Mod.mm/Mod/Everest/Everest.Discord.cs:184-186 | game exit disposes the broadcaster and frees the slot |
| `Discord.Broadcaster.GetMapIconURLCached` | Celeste.Mod.mm/Mod/Everest/Everest.Discord.cs:303-311 | a hit returns the stored URL with no hashing; a miss returns the resolver's URL, stores it, and hashes at most once |
| `Discord.Broadcaster.UpdatePresence` | Celeste.Mod.mm/Mod/Everest/Everest.Discord.cs:205-284 | every call overwrites the pending presence with the requested menu or level presence and sets the dirty flag, keeping the invariant; when map and icon are both shown the cache gains the looked-up icon and an image is hashed only on a miss, otherwise cache and hash count are unchanged |
| `Discord.Broadcaster.MarkPending` | Celeste.Mod.mm/Mod/Everest/Everest.Discord.cs:265-283 | the given presence becomes the pending one and the dirty flag is raised, keeping the invariant |
| `Discord.Broadcaster.RequestedActivity` | Celeste.Mod.mm/Mod/Everest/Everest.Discord.cs:205-281 | the activity built is the menu presence without a session and the level presence with one, with the same cache and hash-count effects |
| `Discord.Broadcaster.MenuActivity` | Celeste.Mod.mm/Mod/Everest/Everest.Discord.cs:206-218 | the menu activity built field by field is `MenuPresence` |
| `Discord.Broadcaster.LevelActivity` | Celeste.Mod.mm/Mod/Everest/Everest.Discord.cs:219-281 | the in-level presence is built as `LevelPresence` defines it, from the cached icon lookup and the level-set scan |
| `Discord.Broadcaster.OnMainMenu` | Celeste.Mod.mm/Mod/Everest/Everest.Discord.cs:188-190 | the main menu makes the menu presence pending |
| `Discord.Broadcaster.OnLoadLevel` | Celeste.Mod.mm/Mod/Everest/Everest.Discord.cs:192-198 | the start time is set only when it is 0, otherwise kept; the level presence carrying it becomes pending; with map and icon shown the cache gains the level's icon and an image is hashed only on a miss, otherwise cache and hash count are unchanged |
| `Discord.Broadcaster.OnLevelExit` | Celeste.Mod.mm/Mod/Everest/Everest.Discord.cs:200-203 | leaving a level resets the start time to 0 and makes the menu presence pending |
| `Discord.ScanWithoutClient` | Celeste.Mod.mm/Mod/Everest/Everest.Discord.cs:93-101 | with no client listening, the broadcaster gives up after exactly `MaxPort - MinPort + 1` failed frames; it disposes exactly once, on `MaxPort`, and sends nothing |
| `Discord.LastWriteWins` | Celeste.Mod.mm/Mod/Everest/Everest.Discord.cs:164-180 | of two presences requested between sends, exactly one activity is sent: the presence requested second, for a level session as well as for the menus |
| `Discord.Request` | Celeste.Mod.mm/Mod/Everest/Everest.Discord.cs:205-284 | a request leaves the requested presence pending, and looking its icon up again in the updated cache gives the same presence |
| `Discord.RequestWhileInFlight` | Celeste.Mod.mm/Mod/Everest/Everest.Discord.cs:159-163 | a request followed by a frame whose send is still in flight stays pending and sends nothing |
| `Discord.NoSendWhileOutstanding` | Celeste.Mod.mm/Mod/Everest/Everest.Discord.cs:159-180 | while a send is in flight, the frames after each of two requests send nothing and keep the request pending; once it completes, exactly one send follows, of the presence requested last |
| `Discord.ResolveTwice` | Celeste.Mod.mm/Mod/Everest/Everest.Discord.cs:303-311 | resolving one icon twice gives the same URL and at most one hash computation |
| `Discord.PlaythroughTimestamps` | Celeste.Mod.mm/Mod/Everest/Everest.Discord.cs:192-203 | a second level load keeps the start time of the first (or takes its own when the first was 0), and the presence it makes pending carries that time; leaving the level clears it |
| `Discord.SingletonLifecycle` | Celeste.Mod.mm/Mod/Everest/Everest.Discord.cs:83-91 | a second creation returns the live instance; after disposal a new, fresh instance is created |

## Left out

- Real I/O is not modelled: the `ClientWebSocket` connect and send, and the
  `HttpClient` fetch. Task completion and socket state are inputs to `Update`.
  Activities handed to the socket are appended to the ghost log `sent`.
- `LoadRichPresenceIcons` is not modelled: it is a background task that runs an
  HTTP fetch. The known-hash set is an input (`IconEnv.known`), and it may
  differ from one lookup to the next.
- The JSON envelope (`SET_ACTIVITY`, `args.activity`) and the `DateTime.UtcNow.Ticks`
  nonce are not modelled: serialisation belongs to Newtonsoft.Json, and the
  nonce comes from the clock.
- `ChecksumHasher.ComputeHash` is a parameter (`IconEnv.hasher`).
- The `Content.Map` lookup is a map from asset path to bytes.
- `Dialog` localisation and `FilterEmojiFrom` (regex and emoji tables) are not
  modelled: their results are given as `Area.displayName` and
  `Area.displayLevelSet`.
- `DateTimeToDiscordTime` is floating-point arithmetic on the clock; the time is
  the `now` parameter.
- Game-engine glue is not modelled: event subscription and unsubscription,
  component registration and removal, `UpdateOrder`, the `CancellationTokenSource`,
  logging, and the `FailureWarning` fade. The fade is counted by the ghost
  `connectedNotices`.
- `Discord.Broadcaster.Update`: it requires a broadcaster that is not disposed.
  Disposal removes the component from the game, so the game never polls it
  again. The model does not cover a poll after disposal.
- `Text.AsciiLower`: `ToLowerInvariant` is modelled on ASCII letters only.
  Non-ASCII case mapping is not modelled.
- `Icons.GetMapIconURL`: `StartsWith("areas/")` is modelled as an ordinal prefix
  test. The culture-sensitive comparison of .NET is not modelled.
- C# `null` strings, such as a null room name concatenated as "", are not
  modelled: every string in the model is a value.
- `Discord.Broadcaster.Valid`: the invariant states one half of "dirty if and
  only if not yet handed to the transport": a clean flag means the pending
  presence was the last one sent. The other half cannot hold, because a
  presence equal to the last one sent can be requested again and is then
  pending.
- `int` and `long` widths are not modelled. Ports, counts and timestamps are
  unbounded integers. The values involved (ports 6463-6472, per-session counts,
  seconds since the Unix epoch) do not come near the limits.
- `Celeste.Mod.mm/Patches/MiniTextbox.cs` is not part of this model. It rewrites
  IL with MonoMod and contains rendering and sound helpers.
