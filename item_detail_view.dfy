/**
 * The item detail screen: the claim status panel, the claim controls that
 * only an admin sees on an unclaimed item, and `claimItem`, which records
 * the claimer, the claim flag and the claim date together.
 */
module ItemDetail {
  import opened Wrappers
  import opened Items

  /** What the bottom of the screen offers: nothing, the "Claim Item" button, or the name field with "Submit". */
  datatype ClaimControls = NoControls | ClaimButton | SubmitForm

  function Controls(isAdmin: bool, isClaimed: bool, isClaiming: bool): (c: ClaimControls)
    ensures c != NoControls <==> isAdmin && !isClaimed
    ensures c == SubmitForm <==> isAdmin && !isClaimed && isClaiming
  {
    if isAdmin && !isClaimed then
      if isClaiming then SubmitForm else ClaimButton
    else
      NoControls
  }

  /** The view's state: the admin binding, its two `@State` fields, whether it was dismissed, and the item. */
  datatype DetailState = DetailState(
    isAdmin: bool,
    claimerName: string,
    isClaiming: bool,
    dismissed: bool,
    item: ItemValue)
  {
    function ShownControls(): ClaimControls {
      Controls(isAdmin, item.isClaimed, isClaiming)
    }
  }

  /**
   * The state after `claimItem` at time `now`. An empty name changes
   * nothing. Otherwise the three claim fields are set, whatever the item's
   * claim status was, the rest of the item is kept, and the form closes.
   */
  function AfterClaim(s: DetailState, now: Date): (r: DetailState)
    ensures s.claimerName == "" ==> r == s
    ensures s.claimerName != "" ==>
              r.item.isClaimed && r.item.claimer == Some(s.claimerName) &&
              r.item.dateClaimed == Some(now) && r.item.SameRecord(s.item) &&
              r == s.(isClaiming := false, dismissed := true, item := r.item)
  {
    if s.claimerName == "" then s
    else
      s.(item := s.item.(claimer := Some(s.claimerName), isClaimed := true, dateClaimed := Some(now)),
         isClaiming := false,
         dismissed := true)
  }

  /** A user action on the claim controls; `saveOk` is the outcome of the save that follows a claim. */
  datatype Event = TapClaimItem | EnterClaimerName(name: string) | TapSubmit(now: Date, saveOk: bool)

  /** One action, taking effect only when the control it uses is on screen. */
  function Step(s: DetailState, e: Event): (r: DetailState)
    ensures r.isAdmin == s.isAdmin && r.item.SameRecord(s.item)
    ensures s.ShownControls() == NoControls ==> r == s
    ensures r != s ==> s.ShownControls() == (if e.TapClaimItem? then ClaimButton else SubmitForm)
  {
    match e
    case TapClaimItem =>
      if s.ShownControls() == ClaimButton then s.(isClaiming := true) else s
    case EnterClaimerName(name) =>
      if s.ShownControls() == SubmitForm then s.(claimerName := name) else s
    case TapSubmit(now, _) =>
      if s.ShownControls() == SubmitForm then AfterClaim(s, now) else s
  }

  /** The state after the actions `es`, one after another. */
  function Run(s: DetailState, es: seq<Event>): (r: DetailState)
    ensures r.isAdmin == s.isAdmin && r.item.SameRecord(s.item)
    decreases |es|
  {
    if es == [] then s else Run(Step(s, es[0]), es[1..])
  }

  /** An action changes the item only when it is "Submit", on an admin's unclaimed item, with a name entered. */
  lemma StepChangesItemOnlyBySubmit(s: DetailState, e: Event)
    ensures Step(s, e).item != s.item ==>
              e.TapSubmit? && s.isAdmin && !s.item.isClaimed && s.isClaiming && s.claimerName != ""
    ensures Step(s, e).isClaiming && !s.isClaiming ==>
              e.TapClaimItem? && s.isAdmin && !s.item.isClaimed
  {
  }

  /** No sequence of actions breaks the claim coupling. */
  lemma {:induction false} RunKeepsCoupling(s: DetailState, es: seq<Event>)
    requires s.item.ClaimCoupled()
    ensures Run(s, es).item.ClaimCoupled()
    decreases |es|
  {
    if es != [] {
      RunKeepsCoupling(Step(s, es[0]), es[1..]);
    }
  }

  /**
   * No sequence of actions un-claims an item. The first clause, kept for
   * readers, restates what `Run` itself promises about the seven fields
   * outside the claim.
   */
  lemma {:induction false} RunKeepsRecord(s: DetailState, es: seq<Event>)
    ensures Run(s, es).item.SameRecord(s.item)
    ensures s.item.isClaimed ==> Run(s, es).item.isClaimed
    decreases |es|
  {
    if es != [] {
      RunKeepsRecord(Step(s, es[0]), es[1..]);
    }
  }

  /** Without the claim controls (not an admin, or already claimed) no sequence of actions changes anything. */
  lemma {:induction false} NoControlsFreezeState(s: DetailState, es: seq<Event>)
    requires !s.isAdmin || s.item.isClaimed
    ensures Run(s, es) == s
    decreases |es|
  {
    if es != [] {
      NoControlsFreezeState(Step(s, es[0]), es[1..]);
    }
  }

  /** Claim Item, type a name, Submit: the item ends up claimed by that name at that time, whatever the save did. */
  lemma ClaimWalkthrough(s: DetailState, name: string, now: Date, saveOk: bool)
    requires s.isAdmin && !s.item.isClaimed && !s.isClaiming && name != ""
    ensures Run(s, [TapClaimItem, EnterClaimerName(name), TapSubmit(now, saveOk)]).item ==
            s.item.(isClaimed := true, claimer := Some(name), dateClaimed := Some(now))
  {
    var s1 := Step(s, TapClaimItem);
    var s2 := Step(s1, EnterClaimerName(name));
    var es := [TapClaimItem, EnterClaimerName(name), TapSubmit(now, saveOk)];
    assert es[1..] == [EnterClaimerName(name), TapSubmit(now, saveOk)];
    assert es[1..][1..] == [TapSubmit(now, saveOk)];
    assert Run(s, es) == Run(s1, es[1..]);
    assert Run(s1, es[1..]) == Run(s2, [TapSubmit(now, saveOk)]);
    assert Run(s2, [TapSubmit(now, saveOk)]) == Step(s2, TapSubmit(now, saveOk));
  }

  /** `claimItem` itself does not look at `isClaimed`: called on a claimed item it replaces the claimer. */
  lemma ClaimItemOverwritesEarlierClaim(s: DetailState, now: Date)
    requires s.item.isClaimed && s.claimerName != "" && s.item.claimer != Some(s.claimerName)
    ensures AfterClaim(s, now).item.claimer != s.item.claimer
    ensures AfterClaim(s, now).item.claimer == Some(s.claimerName)
  {
  }

  /** The claim status panel: the status text, the claimer line and whether a claim date line is shown. */
  datatype StatusPanel = StatusPanel(status: string, claimerLine: Option<string>, showsDateClaimed: bool)

  function StatusOf(v: ItemValue): (p: StatusPanel)
    ensures p.status == (if v.isClaimed then "Claimed" else "Not Claimed")
    ensures p.claimerLine.Some? <==> v.isClaimed
    ensures v.isClaimed && v.claimer.Some? ==> p.claimerLine == Some("Claimer: " + v.claimer.value)
    ensures v.isClaimed && v.claimer.None? ==> p.claimerLine == Some("Claimer: Unknown")
    ensures p.showsDateClaimed <==> v.isClaimed && v.dateClaimed.Some?
  {
    if v.isClaimed then
      var shown := if v.claimer.Some? then v.claimer.value else "Unknown";
      assert "Claimer: " + "Unknown" == "Claimer: Unknown";
      StatusPanel("Claimed", Some("Claimer: " + shown), v.dateClaimed.Some?)
    else
      StatusPanel("Not Claimed", None, false)
  }

  /** For a coupled item the "Unknown" fallback is never used and the claim date is shown exactly when claimed. */
  lemma CoupledStatusShowsClaim(v: ItemValue)
    requires v.ClaimCoupled()
    ensures v.isClaimed ==> StatusOf(v).claimerLine == Some("Claimer: " + v.claimer.value)
    ensures StatusOf(v).showsDateClaimed == v.isClaimed
  {
  }

  class ItemDetailView {
    var isAdmin: bool
    var claimerName: string
    var isClaiming: bool
    var dismissed: bool
    const item: Item

    function State(): DetailState
      reads this, item
    {
      DetailState(isAdmin, claimerName, isClaiming, dismissed, item.Value())
    }

    constructor (isAdmin: bool, item: Item)
      ensures this.item == item
      ensures State() == DetailState(isAdmin, "", false, false, item.Value())
    {
      this.isAdmin := isAdmin;
      this.item := item;
      claimerName := "";
      isClaiming := false;
      dismissed := false;
    }

    /**
     * `claimItem()`. A failed save (`saveOk` false) is only logged: the
     * claim stays in place and the form still closes.
     */
    method ClaimItem(now: Date, saveOk: bool)
      modifies this, item
      ensures State() == AfterClaim(old(State()), now)
      ensures old(item.ClaimCoupled()) ==> item.ClaimCoupled()
    {
      if claimerName == "" {
        return;
      }
      item.claimer := Some(claimerName);
      item.isClaimed := true;
      item.dateClaimed := Some(now);
      isClaiming := false;
      dismissed := true;
    }

    /** The "Claim Item" button's action. */
    method StartClaiming()
      modifies this
      ensures State() == old(State()).(isClaiming := true)
    {
      isClaiming := true;
    }

    /** A user action, dispatched to the control it uses when the body shows that control. */
    method Handle(e: Event)
      modifies this, item
      ensures State() == Step(old(State()), e)
    {
      var shown := Controls(isAdmin, item.isClaimed, isClaiming);
      match e
      case TapClaimItem =>
        if shown == ClaimButton {
          StartClaiming();
        }
      case EnterClaimerName(name) =>
        if shown == SubmitForm {
          claimerName := name;
        }
      case TapSubmit(now, saveOk) =>
        if shown == SubmitForm {
          ClaimItem(now, saveOk);
        }
    }
  }
}
