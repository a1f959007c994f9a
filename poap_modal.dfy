/**
 * The POAP claim modal: which of its five screens is shown, whether it is
 * shown at all, and how its callbacks move its local state and the one
 * persisted `ens-page-default-mint` entry of the browser's local storage.
 *
 * Times are integer milliseconds. The props of one mounted modal (the first
 * POAP event of the reference data, the metadata's `endDate` attribute and
 * the event slug) are fixed for that mount; the current time and the global
 * `SHOW_POAP_ANYWAYS` override are parameters of each render.
 */
module POAPModal {
  import opened Wrappers

  /** Grace window after the end date during which an expired POAP is still shown. */
  const HIDE_AFTER_TIME: int := 1000 * 60 * 60 * 24 * 100

  const PENDING_APPROVAL_STATUS: string := "pending-approval"
  const EXPIRED_STATUS: string := "expired"
  const END_DATE: string := "endDate"
  const STORAGE_NAME_KEY: string := "ens-page-default-mint"
  const UNKNOWN_EVENT: string := "Unknown Event"

  /** The window is 100 days (not the 10 the comment beside it says). */
  lemma HideAfterTimeIsHundredDays()
    ensures HIDE_AFTER_TIME == 8_640_000_000
    ensures HIDE_AFTER_TIME == 100 * 24 * 60 * 60 * 1000
  {
  }

  /** The five screens of the claim flow. */
  datatype Stage = ErrorState | PendingApproval | ExpiredState | MintTo | NameInput

  /**
   * The value held by the mint-error state. The source keeps an arbitrary
   * payload and tests its truthiness: `Unset` stands for `undefined` and
   * every other falsy payload, `Failure` for a truthy one.
   */
  datatype MintError = Unset | Failure(payload: string)

  /** The part of a POAP event descriptor the modal reads. */
  datatype PoapEvent = PoapEvent(status: string)

  /** A metadata attribute; `value` is the attribute's date as a time in milliseconds. */
  datatype Attribute = Attribute(traitType: string, value: int)

  /** Position of the first `endDate` attribute, as `attributes.find` locates it. */
  function EndDateIndex(attributes: seq<Attribute>): (k: Option<nat>)
    ensures k.Some? ==>
      && k.value < |attributes|
      && attributes[k.value].traitType == END_DATE
      && forall j :: 0 <= j < k.value ==> attributes[j].traitType != END_DATE
    ensures k.None? ==> forall j :: 0 <= j < |attributes| ==> attributes[j].traitType != END_DATE
  {
    if attributes == [] then None
    else if attributes[0].traitType == END_DATE then Some(0)
    else match EndDateIndex(attributes[1..])
      case None => None
      case Some(i) => Some(i + 1)
  }

  /** The expiry-hide rule: an expired event whose end date is more than the window in the past. */
  predicate ShouldHideCuzExpired(status: string, expiry: int, now: int, showAnyways: bool)
    ensures ShouldHideCuzExpired(status, expiry, now, showAnyways) ==> status == "expired" && !showAnyways
    ensures ShouldHideCuzExpired(status, expiry, now, showAnyways) ==> now > expiry + 8_640_000_000
  {
    status == EXPIRED_STATUS && expiry - now + HIDE_AFTER_TIME < 0 && !showAnyways
  }

  /** The hide rule fires exactly for an expired event that ended more than 100 days before `now`, without the override. */
  lemma HideRuleCharacterized(status: string, expiry: int, now: int, showAnyways: bool)
    ensures ShouldHideCuzExpired(status, expiry, now, showAnyways) <==>
      status == "expired" && now - expiry > 8_640_000_000 && !showAnyways
  {
  }

  /** With the override set, or with any status other than `expired`, the rule never fires. */
  lemma HideRuleNeedsExpiredAndNoOverride(status: string, expiry: int, now: int, showAnyways: bool)
    requires showAnyways || status != "expired"
    ensures !ShouldHideCuzExpired(status, expiry, now, showAnyways)
  {
  }

  /** Priority of a stage: the lower the rank, the earlier it is tested. */
  function Rank(s: Stage): nat
  {
    match s
    case ErrorState => 0
    case PendingApproval => 1
    case ExpiredState => 2
    case MintTo => 3
    case NameInput => 4
  }

  /** The condition under which a stage may be shown, each stated independently of the others. */
  predicate Applies(s: Stage, error: MintError, status: string, mintToProfile: string)
  {
    match s
    case ErrorState => error.Failure?
    case PendingApproval => status == PENDING_APPROVAL_STATUS
    case ExpiredState => status == EXPIRED_STATUS
    case MintTo => mintToProfile != ""
    case NameInput => true
  }

  /** The nested `if` chain that assigns `state`: the first stage, in priority order, whose condition holds. */
  function SelectStage(error: MintError, status: string, mintToProfile: string): (s: Stage)
    ensures Applies(s, error, status, mintToProfile)
    ensures forall t: Stage :: Rank(t) < Rank(s) ==> !Applies(t, error, status, mintToProfile)
  {
    if error.Failure? then ErrorState
    else if status == PENDING_APPROVAL_STATUS then PendingApproval
    else if status == EXPIRED_STATUS then ExpiredState
    else if mintToProfile != "" then MintTo
    else NameInput
  }

  /** Exactly one stage is selected: any stage that applies with no higher-priority stage applying is the selected one. */
  lemma SelectedStageIsUnique(error: MintError, status: string, mintToProfile: string, s: Stage)
    requires Applies(s, error, status, mintToProfile)
    requires forall t: Stage :: Rank(t) < Rank(s) ==> !Applies(t, error, status, mintToProfile)
    ensures s == SelectStage(error, status, mintToProfile)
  {
  }

  /** A recorded mint error wins over every status, including pending approval and expired. */
  lemma MintErrorForcesErrorStage(payload: string, status: string, mintToProfile: string)
    ensures SelectStage(Failure(payload), status, mintToProfile) == ErrorState
  {
  }

  /** Whether anything is drawn: dismissal, the first paint and the expiry-hide rule. */
  predicate Visible(dismissed: bool, hasRendered: bool, status: string, expiry: int, now: int, showAnyways: bool)
    ensures dismissed || !hasRendered || ShouldHideCuzExpired(status, expiry, now, showAnyways) ==>
      !Visible(dismissed, hasRendered, status, expiry, now, showAnyways)
    ensures Visible(dismissed, hasRendered, status, expiry, now, showAnyways) ==> !dismissed && hasRendered
    ensures showAnyways || status != "expired" ==>
      (Visible(dismissed, hasRendered, status, expiry, now, showAnyways) <==> !dismissed && hasRendered)
  {
    !(dismissed || !hasRendered || ShouldHideCuzExpired(status, expiry, now, showAnyways))
  }

  /** One render: nothing, or the selected stage. */
  function Render(dismissed: bool, hasRendered: bool, error: MintError, mintToProfile: string,
                  status: string, expiry: int, now: int, showAnyways: bool): (v: Option<Stage>)
    ensures v.None? <==> dismissed || !hasRendered || ShouldHideCuzExpired(status, expiry, now, showAnyways)
    ensures v.Some? ==> Applies(v.value, error, status, mintToProfile)
    ensures v.Some? ==> forall t: Stage :: Rank(t) < Rank(v.value) ==> !Applies(t, error, status, mintToProfile)
  {
    if Visible(dismissed, hasRendered, status, expiry, now, showAnyways)
    then Some(SelectStage(error, status, mintToProfile))
    else None
  }

  /** Nothing is rendered once dismissed or before the first paint, whatever the rest of the state. */
  lemma NothingRenderedWhenDismissedOrUnpainted(dismissed: bool, hasRendered: bool, error: MintError, mintToProfile: string,
                                                status: string, expiry: int, now: int, showAnyways: bool)
    requires dismissed || !hasRendered
    ensures Render(dismissed, hasRendered, error, mintToProfile, status, expiry, now, showAnyways) == None
  {
  }

  /** Otherwise something is rendered exactly when the hide rule does not fire, and then it is the selected stage. */
  lemma RenderedUnlessExpiredLongAgo(error: MintError, mintToProfile: string,
                                     status: string, expiry: int, now: int, showAnyways: bool)
    ensures Render(false, true, error, mintToProfile, status, expiry, now, showAnyways).None? <==>
      status == "expired" && now - expiry > 8_640_000_000 && !showAnyways
    ensures Render(false, true, error, mintToProfile, status, expiry, now, showAnyways).Some? ==>
      Render(false, true, error, mintToProfile, status, expiry, now, showAnyways).value == SelectStage(error, status, mintToProfile)
  {
  }

  /** The slug-to-name table. */
  const EVENT_NAMES: map<string, string> := map["frensday2023" := "frENSday 2023", "ethdenver2024" := "ETHDenver 2024"]

  /** `event_names[event] || 'Unknown Event'`. */
  function EventName(slug: string): (name: string)
    ensures slug == "frensday2023" ==> name == "frENSday 2023"
    ensures slug == "ethdenver2024" ==> name == "ETHDenver 2024"
    ensures slug != "frensday2023" && slug != "ethdenver2024" ==> name == "Unknown Event"
  {
    if slug in EVENT_NAMES && EVENT_NAMES[slug] != "" then EVENT_NAMES[slug] else UNKNOWN_EVENT
  }

  /** `getItem(STORAGE_NAME_KEY) || ''`: the stored name, or empty when there is none. */
  function MintTargetFrom(stored: Option<string>): (target: string)
    ensures stored.Some? ==> target == stored.value
    ensures stored.None? ==> target == ""
  {
    if stored.Some? then stored.value else ""
  }

  /** The browser's local storage as a string-to-string map. */
  class LocalStorage {
    var items: map<string, string>

    constructor (items: map<string, string>)
      ensures this.items == items
    {
      this.items := items;
    }

    method GetItem(key: string) returns (v: Option<string>)
      ensures v.Some? <==> key in items
      ensures v.Some? ==> v.value == items[key]
    {
      v := if key in items then Some(items[key]) else None;
    }

    method SetItem(key: string, value: string)
      modifies this
      ensures items == old(items)[key := value]
    {
      items := items[key := value];
    }
  }

  /** What `LocalStorage?.getItem(STORAGE_NAME_KEY)` yields; `null` storage reads as absent. */
  function StoredName(storage: LocalStorage?): (stored: Option<string>)
    reads storage
    ensures stored.Some? <==> storage != null && STORAGE_NAME_KEY in storage.items
    ensures stored.Some? ==> stored.value == storage.items[STORAGE_NAME_KEY]
  {
    if storage != null && STORAGE_NAME_KEY in storage.items then Some(storage.items[STORAGE_NAME_KEY]) else None
  }

  /** One mounted modal: its four pieces of state, its fixed props and the (possibly absent) storage. */
  class Modal {
    var dismissed: bool
    var hasRendered: bool
    var mintToProfile: string
    var mintToProfileError: MintError
    const storage: LocalStorage?
    const status: string
    const expiry: int
    const eventName: string

    /** Mounting: the initial state, and the props the render derives from the reference data and metadata. */
    constructor (poapEvents: seq<PoapEvent>, attributes: seq<Attribute>, event: string, storage: LocalStorage?)
      requires |poapEvents| > 0
      requires exists i :: 0 <= i < |attributes| && attributes[i].traitType == END_DATE
      ensures !dismissed && !hasRendered && mintToProfileError == Unset
      ensures mintToProfile == MintTargetFrom(StoredName(storage))
      ensures this.storage == storage
      ensures status == poapEvents[0].status
      ensures EndDateIndex(attributes).Some? && expiry == attributes[EndDateIndex(attributes).value].value
      ensures eventName == EventName(event)
    {
      var stored: Option<string> := None;
      if storage != null {
        stored := storage.GetItem(STORAGE_NAME_KEY);
      }
      dismissed := false;
      hasRendered := false;
      mintToProfile := MintTargetFrom(stored);
      mintToProfileError := Unset;
      this.storage := storage;
      status := poapEvents[0].status;
      var k := EndDateIndex(attributes);
      expiry := attributes[k.value].value;
      eventName := EventName(event);
    }

    /** The stage the current state selects. */
    function CurrentStage(): (s: Stage)
      reads this
      ensures Applies(s, mintToProfileError, status, mintToProfile)
      ensures forall t: Stage :: Rank(t) < Rank(s) ==> !Applies(t, mintToProfileError, status, mintToProfile)
    {
      SelectStage(mintToProfileError, status, mintToProfile)
    }

    /** What one render at time `now` shows. */
    function View(now: int, showAnyways: bool): (v: Option<Stage>)
      reads this
      ensures v.None? <==> dismissed || !hasRendered || ShouldHideCuzExpired(status, expiry, now, showAnyways)
      ensures v.Some? ==> v.value == CurrentStage()
    {
      Render(dismissed, hasRendered, mintToProfileError, mintToProfile, status, expiry, now, showAnyways)
    }

    /** The mount effect: `hasRendered` becomes true and nothing else changes. */
    method FirstPaint()
      modifies this
      ensures hasRendered
      ensures dismissed == old(dismissed) && mintToProfile == old(mintToProfile)
      ensures mintToProfileError == old(mintToProfileError)
    {
      hasRendered := true;
    }

    /** The close button: `dismissed` becomes true whatever the stage, and no render shows anything after. */
    method Dismiss()
      modifies this
      ensures dismissed
      ensures hasRendered == old(hasRendered) && mintToProfile == old(mintToProfile)
      ensures mintToProfileError == old(mintToProfileError)
      ensures forall now: int, showAnyways: bool :: View(now, showAnyways) == None
    {
      dismissed := true;
    }

    /** The mint screen's close callback: the same effect as the close button. */
    method OnCallClose()
      modifies this
      ensures dismissed
      ensures hasRendered == old(hasRendered) && mintToProfile == old(mintToProfile)
      ensures mintToProfileError == old(mintToProfileError)
      ensures forall now: int, showAnyways: bool :: View(now, showAnyways) == None
    {
      Dismiss();
    }

    /** Name submit: the name goes to the field and, when storage exists, to the storage key. */
    method OnSubmit(name: string)
      modifies this, storage
      ensures mintToProfile == name
      ensures storage != null ==> storage.items == old(storage.items)[STORAGE_NAME_KEY := name]
      ensures dismissed == old(dismissed) && hasRendered == old(hasRendered)
      ensures mintToProfileError == old(mintToProfileError)
      ensures StoredName(storage) == if storage != null then Some(name) else None
      ensures mintToProfileError == Unset && status != PENDING_APPROVAL_STATUS && status != EXPIRED_STATUS && name != ""
        ==> CurrentStage() == MintTo
    {
      mintToProfile := name;
      if storage != null {
        storage.SetItem(STORAGE_NAME_KEY, name);
      }
    }

    /** "Change name": the field and, when storage exists, the storage key become empty. */
    method OnCallChange()
      modifies this, storage
      ensures mintToProfile == ""
      ensures storage != null ==> storage.items == old(storage.items)[STORAGE_NAME_KEY := ""]
      ensures dismissed == old(dismissed) && hasRendered == old(hasRendered)
      ensures mintToProfileError == old(mintToProfileError)
      ensures MintTargetFrom(StoredName(storage)) == ""
      ensures mintToProfileError == Unset && status != PENDING_APPROVAL_STATUS && status != EXPIRED_STATUS
        ==> CurrentStage() == NameInput
    {
      mintToProfile := "";
      if storage != null {
        storage.SetItem(STORAGE_NAME_KEY, "");
      }
    }

    /** The mint screen's error callback: the payload is kept, and a truthy one selects the error screen. */
    method OnMintToProfileError(error: MintError)
      modifies this
      ensures mintToProfileError == error
      ensures dismissed == old(dismissed) && hasRendered == old(hasRendered)
      ensures mintToProfile == old(mintToProfile)
      ensures error.Failure? ==> CurrentStage() == ErrorState
    {
      mintToProfileError := error;
    }
  }

  /**
   * Submitting a name on an active event shows the mint screen with that name,
   * and so does a fresh mount that reads the same storage.
   */
  method SubmitThenRemount(poapEvents: seq<PoapEvent>, attributes: seq<Attribute>, event: string,
                           stored: map<string, string>, name: string, now: int, showAnyways: bool)
    returns (first: Option<Stage>, second: Option<Stage>, target: string)
    requires |poapEvents| > 0
    requires exists i :: 0 <= i < |attributes| && attributes[i].traitType == END_DATE
    requires poapEvents[0].status != PENDING_APPROVAL_STATUS && poapEvents[0].status != EXPIRED_STATUS
    requires name != ""
    ensures first == Some(MintTo) && second == Some(MintTo) && target == name
  {
    var storage := new LocalStorage(stored);
    var modal := new Modal(poapEvents, attributes, event, storage);
    modal.FirstPaint();
    modal.OnSubmit(name);
    first := modal.View(now, showAnyways);
    var remounted := new Modal(poapEvents, attributes, event, storage);
    remounted.FirstPaint();
    second := remounted.View(now, showAnyways);
    target := remounted.mintToProfile;
  }

  /** "Change name" after a submit clears the storage, so a fresh mount asks for a name again. */
  method ChangeNameThenRemount(poapEvents: seq<PoapEvent>, attributes: seq<Attribute>, event: string,
                               stored: map<string, string>, name: string, now: int, showAnyways: bool)
    returns (second: Option<Stage>)
    requires |poapEvents| > 0
    requires exists i :: 0 <= i < |attributes| && attributes[i].traitType == END_DATE
    requires poapEvents[0].status != PENDING_APPROVAL_STATUS && poapEvents[0].status != EXPIRED_STATUS
    ensures second == Some(NameInput)
  {
    var storage := new LocalStorage(stored);
    var modal := new Modal(poapEvents, attributes, event, storage);
    modal.FirstPaint();
    modal.OnSubmit(name);
    modal.OnCallChange();
    var remounted := new Modal(poapEvents, attributes, event, storage);
    remounted.FirstPaint();
    second := remounted.View(now, showAnyways);
  }

  /** Once a truthy mint error is recorded, an expired or pending event still shows the error screen. */
  method ErrorOverridesStatus(poapEvents: seq<PoapEvent>, attributes: seq<Attribute>, event: string,
                          storage: LocalStorage?, name: string, payload: string)
    returns (stage: Stage)
    requires |poapEvents| > 0
    requires exists i :: 0 <= i < |attributes| && attributes[i].traitType == END_DATE
    ensures stage == ErrorState
  {
    var modal := new Modal(poapEvents, attributes, event, storage);
    modal.FirstPaint();
    modal.OnMintToProfileError(Failure(payload));
    stage := modal.CurrentStage();
  }
}
