# ens-page: POAP claim modal and records section, in Dafny

This project models the two pieces of logic in the ens-page profile viewer
that are more than markup.

- **The POAP claim modal** (`components/POAPModal/POAPModal.tsx`). The model
  covers when the modal draws anything at all: dismissal, the first paint,
  and the rule that hides an event that expired more than 100 days ago. It
  covers which of the five screens is shown, in strict priority order:
  error, pending approval, expired, mint-to, name input. It also covers the
  event-name table, and how the callbacks change the four pieces of state
  and the persisted `ens-page-default-mint` storage entry. The pure rules
  are functions (`ShouldHideCuzExpired`, `Visible`, `SelectStage`,
  `Render`, `EventName`). The state is a class `Modal`, and its callbacks
  are methods. Local storage is a class `LocalStorage` over a
  `map<string, string>`. A `null` storage reference stands for a browser
  without storage: reads give nothing, and writes do nothing.
- **The records section** (`components/Records/records.tsx`). The model
  covers the `buttonControls` dispatch from a record key and value to at
  most one `Button(href, text)`. It covers the assembly of the section: the
  record buttons in key order, with the records that give nothing dropped,
  then the Farcaster button when there is a resolved user, then the
  "View on ENS App" button, always last. The formatter `formatRecord` and
  the hostname parser (`new URL(..).hostname`) are function parameters. A
  parser result of `None` stands for `new URL` throwing, and that exception
  makes the whole section fail (`Section.Threw`).

Modelling choices that follow the code:

- The hide window `HIDE_AFTER_TIME` is 100 days (8,640,000,000 ms). The
  comment beside it says 10 days; the model uses the value.
- The mint-error state holds an arbitrary payload, and the code tests it for
  truthiness. `MintError.Unset` stands for `undefined` and every other falsy
  payload. Storing a falsy payload therefore does not select the error screen.
- The Twitter href concatenates the formatted value alone. When the
  formatter returns `undefined`, JavaScript's `+` makes the href end in
  `"undefined"`. The label still falls back to the raw value. Unlike the
  GitHub and Telegram hrefs, the Twitter href does not fall back to the raw
  value (`TwitterHrefWithoutFormattedValue`).
- `formatted || value` falls back to the raw value both when the formatter
  gives `undefined` and when it gives `""` (`OrValue`).
- An empty `poapEvents` list and a metadata list with no `endDate`
  attribute make the component crash. Both are preconditions of the
  `Modal` constructor.

Files: `wrappers.dfy` (module `Wrappers`, the `Option` type),
`poap_modal.dfy` (module `POAPModal`) and `records.dfy` (module `Records`).

## Model

| member | source | states |
|---|---|---|
| POAPModal.HideAfterTimeIsHundredDays | components/POAPModal/POAPModal.tsx:18-19 | the hide window is 100 days, 8,640,000,000 ms |
| POAPModal.EndDateIndex | components/POAPModal/POAPModal.tsx:53-55 | the position found is the first attribute whose trait type is `endDate`; none is found exactly when no attribute has that trait type |
| POAPModal.HideRuleCharacterized | components/POAPModal/POAPModal.tsx:60-63 | the expiry-hide rule fires exactly when the status is `expired`, the end date is more than 8,640,000,000 ms before now, and the override is off |
| POAPModal.HideRuleNeedsExpiredAndNoOverride | components/POAPModal/POAPModal.tsx:60-63 | with the override set, or with any status other than `expired`, the hide rule never fires |
| POAPModal.NothingRenderedWhenDismissedOrUnpainted | components/POAPModal/POAPModal.tsx:73 | a dismissed modal, or one not yet painted, renders nothing, whatever the rest of its state |
| POAPModal.RenderedUnlessExpiredLongAgo | components/POAPModal/POAPModal.tsx:60-89 | an undismissed, painted modal renders nothing exactly when the hide rule fires; otherwise it renders the selected stage |
| POAPModal.ShouldHideCuzExpired | components/POAPModal/POAPModal.tsx:60-63 | the hide rule can fire only for status `expired` with the override off, and only when now is more than 8,640,000,000 ms past the end date |
| POAPModal.Visible | components/POAPModal/POAPModal.tsx:73 | a dismissed or unpainted modal, or one the expiry-hide rule hides, is not drawn; anything drawn means not dismissed and already painted; with the override on or a status other than `expired`, drawing depends on those two flags alone |
| POAPModal.Render | components/POAPModal/POAPModal.tsx:73-89 | one render is nothing exactly when dismissed, unpainted or hidden by the expiry rule; otherwise it is the stage whose condition holds with no higher-priority condition holding |
| POAPModal.MintTargetFrom | components/POAPModal/POAPModal.tsx:46-49 | the initial mint target is the stored name when one is stored, and "" when none is (the `getItem` result, or '' in its place) |
| POAPModal.StoredName | components/POAPModal/POAPModal.tsx:48 | `LocalStorage?.getItem` yields a value exactly when storage exists and holds the key, and then it is the stored one |
| POAPModal.Modal.CurrentStage | components/POAPModal/POAPModal.tsx:75-89 | the stage the modal's current state selects: its condition holds and no higher-priority stage's condition does |
| POAPModal.Modal.View | components/POAPModal/POAPModal.tsx:73-89 | a render of the mounted modal at time `now` shows nothing exactly when dismissed, unpainted or hidden by the expiry rule, and otherwise its current stage |
| POAPModal.SelectStage | components/POAPModal/POAPModal.tsx:75-89 | the selected stage's condition holds, and no stage of higher priority (error, pending approval, expired, mint-to, name input) has its condition holding |
| POAPModal.SelectedStageIsUnique | components/POAPModal/POAPModal.tsx:75-89 | any stage whose condition holds while no higher-priority condition holds is the selected one, so exactly one stage is selected |
| POAPModal.MintErrorForcesErrorStage | components/POAPModal/POAPModal.tsx:77-78 | a truthy mint error selects the error screen for every status and mint target, including pending approval and expired |
| POAPModal.EventName | components/POAPModal/POAPModal.tsx:27-30 | `frensday2023` gives "frENSday 2023", `ethdenver2024` gives "ETHDenver 2024", and every other slug gives "Unknown Event" (the lookup with its fallback at line 67) |
| POAPModal.LocalStorage.GetItem | components/POAPModal/POAPModal.tsx:46-49 | a read gives the stored value exactly when the key is present |
| POAPModal.LocalStorage.SetItem | components/POAPModal/POAPModal.tsx:145-148 | a write sets that one key and leaves the other entries as they were |
| POAPModal.Modal.constructor | components/POAPModal/POAPModal.tsx:44-58 | at mount the modal is not dismissed, not painted and has no error; its mint target is the stored name, or "" when there is none or no storage; status, expiry and event name come from the first POAP event, the first `endDate` attribute and the slug |
| POAPModal.Modal.FirstPaint | components/POAPModal/POAPModal.tsx:69-71 | the mount effect sets `hasRendered` and changes nothing else |
| POAPModal.Modal.Dismiss | components/POAPModal/POAPModal.tsx:112-114 | the close button sets `dismissed` whatever the stage, changes nothing else, and afterwards no render at any time shows anything |
| POAPModal.Modal.OnCallClose | components/POAPModal/POAPModal.tsx:132-134 | the mint screen's close callback has the same effect as the close button |
| POAPModal.Modal.OnSubmit | components/POAPModal/POAPModal.tsx:142-149 | the submitted name goes to the field and, when storage exists, to the storage key; with no error, an active status and a non-empty name the stage becomes mint-to |
| POAPModal.Modal.OnCallChange | components/POAPModal/POAPModal.tsx:127-131 | "change name" empties the field and, when storage exists, the storage key; with no error and an active status the stage becomes name input |
| POAPModal.Modal.OnMintToProfileError | components/POAPModal/POAPModal.tsx:135-137 | the error payload is stored and nothing else changes; a truthy payload selects the error screen |
| POAPModal.SubmitThenRemount | components/POAPModal/POAPModal.tsx:142-149 | after a submit on an active event the modal shows mint-to, and a fresh mount over the same storage shows mint-to with the submitted name |
| POAPModal.ChangeNameThenRemount | components/POAPModal/POAPModal.tsx:127-131 | after a submit and a "change name", a fresh mount over the same storage shows name input |
| POAPModal.ErrorOverridesStatus | components/POAPModal/POAPModal.tsx:135-137 | after a truthy mint error the modal selects the error screen, whatever the event's status |
| Records.OrValue | components/Records/records.tsx:19 | the JavaScript `or` of `formatted` and `value` is the formatted value when it is present and non-empty, and the raw value when it is `undefined` or "" |
| Records.JsString | components/Records/records.tsx:17 | `'…' + formatted` appends the formatted value when present and the text "undefined" when not |
| Records.FarcasterPresent | components/Records/records.tsx:72 | `farcaster && farcaster.result` holds exactly when the response and its result are both present |
| Records.EnsAppButton | components/Records/records.tsx:87-93 | the trailing button links to `https://ens.app/` followed by the profile name and reads "View on ENS App" |
| Records.RecordsSection | components/Records/records.tsx:63-96 | the section throws exactly when some record's dispatch throws; a rendered section ends with the ENS app button, preceded by the filtered record buttons and then the Farcaster buttons |
| Records.StripLeadingAt | components/Records/records.tsx:47 | the result is the input without its first character when that is '@', and the input unchanged otherwise; no other '@' is removed |
| Records.ButtonControls | components/Records/records.tsx:12-61 | exactly the four keys `com.twitter`, `url`, `com.github`, `org.telegram` give something; `url` throws exactly when its hostname does not parse; the href and label for each key are as the code builds them |
| Records.TwitterHrefWithoutFormattedValue | components/Records/records.tsx:15-21 | with no formatted value the Twitter href is "https://twitter.com/undefined" while the label is the raw value |
| Records.TelegramStripsOneAt | components/Records/records.tsx:44-52 | a Telegram handle starting "@@" keeps its second '@' in the href, and the label keeps both |
| Records.Controls | components/Records/records.tsx:69-70 | one control per record entry, in order, each the dispatch of that entry |
| Records.KeepLinks | components/Records/records.tsx:71 | the kept buttons are exactly the buttons of the link controls |
| Records.KeepLinksAppend | components/Records/records.tsx:71 | filtering distributes over concatenation, so order is kept and dropped entries leave no gap |
| Records.ControlsAppend | components/Records/records.tsx:69-70 | mapping distributes over concatenation of the record entries |
| Records.RecordButtonsInKeyOrder | components/Records/records.tsx:69-71 | the record buttons of two concatenated entry lists are those of the first followed by those of the second |
| Records.RecordButtonCount | components/Records/records.tsx:69-71 | when nothing throws there is exactly one record button per recognised key |
| Records.FarcasterButtons | components/Records/records.tsx:72-86 | the Farcaster button exists exactly when both the response and its result are present, and links to `https://warpcast.com/` followed by the username |
| Records.SectionThrowsIffBadUrl | components/Records/records.tsx:24-25 | the section fails exactly when some `url` record's formatted-or-raw value has no parsable hostname |
| Records.SectionLayout | components/Records/records.tsx:67-94 | a rendered section has (recognised keys) + (Farcaster present ? 1 : 0) + 1 buttons: the record buttons first, the Farcaster button next when present, and the ENS app button `https://ens.app/` + name always last |
| Records.TwitterAndDiscordExample | components/Records/records.tsx:55-60 | a Twitter record and a Discord record give exactly the Twitter button and the ENS app button |
| Records.UrlExample | components/Records/records.tsx:24-32 | a `url` record links to its raw value and is labelled with its hostname, followed by the ENS app button |

## Left out

- JSX markup, CSS classes, icons, the POAP image and the decorative `Creeper` overlay for `frensday2023`: rendering only.
- The real `window.localStorage`: modelled as the `LocalStorage` class, with `null` for an environment without it.
- Parsing the `endDate` string with `Date` and reading `Date.now()`: the attribute's value is already a time in integer milliseconds, and the current time is a parameter. An unparsable date gives `NaN` in the code, and then the hide rule never fires; `NaN` is not modelled.
- JavaScript numbers are doubles; times are unbounded integers here, which agrees with them below 2^53 ms.
- `formatRecord`, `new URL(..).hostname` and `short-number`: library calls, modelled as function parameters or left out.
- The follower-count badge on the Farcaster button (`shortNumber(followerCount)`): the button's text is only "@username on farcaster".
- The stage components (`MintToProfile`, `NameInput`, `ClaimError`, `PendingApproval`, `ExpiredPOAP`), the asynchronous mint and the data-fetching hooks: network and UI code outside this model. What the error screen is given for display is not modelled.
- React's re-render and `useEffect` scheduling: each callback is one method call, and the stage is recomputed from the new state. Props are fixed for the life of one mounted `Modal`.
- EventName: does not model JavaScript's inherited object properties, so a slug such as `constructor` gives "Unknown Event" here while the code would return a truthy inherited value.
- Record maps are given as sequences of entries in iteration order; JavaScript's rule that integer-like keys iterate first is not modelled.
- POAPModal.Modal.constructor: requires a non-empty `poapEvents` list and an `endDate` attribute, because the code crashes without them (with an empty list the first event is `undefined` after components/POAPModal/POAPModal.tsx:52, and reading its `status` at line 61 crashes; with no `endDate` attribute, reading `value` of `undefined` at line 57 crashes).
