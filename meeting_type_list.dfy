/**
 * The meeting-creation and join-link controller of the home page
 * (components/MeetingTypeList.tsx): a modal state machine over five states, the
 * form values, the created call and a busy flag; `createMeeting` with its guards
 * in a fixed order; the parser that turns a pasted invitation link or a bare
 * identifier into a meeting identifier; and the shareable link.
 * Toasts, navigation, clipboard writes and the remote create are recorded in an
 * effect log; the clock, the fresh call identifier and remote outcomes are parameters.
 */
module MeetingTypeList {
  import opened Wrappers
  import opened Strings

  const MeetingPath := "/meeting/"
  const DefaultDescription := "Instant Meeting"
  const CallType := "default"
  /** What an absent call identifier prints as inside a template literal. */
  const Undefined := "undefined"
  /** The message of the `Error` thrown when the SDK yields no call object. */
  const NoCallObjectMessage := "Failed to create call object"
  /** The `TypeError` message for `toISOString` on a cleared date (V8 wording). */
  const NullDateMessage := "Cannot read properties of null (reading 'toISOString')"

  /** `meetingState`, where `Closed` is `undefined`. */
  datatype MeetingState = Closed | Schedule | Joining | Instant | ShowingInstantLink

  /** The form values; `dateTime` is absent when the date picker has been cleared. */
  datatype Values = Values(dateTime: Option<int>, description: string, link: string)

  /** The created call kept in `callDetail`, reduced to its identifier. */
  datatype CallRef = CallRef(id: string)

  datatype Toast = Toast(title: string, description: Option<string>, destructive: bool)

  const AuthToast := Toast("Not authenticated or client not initialized", None, true)
  const MissingDateToast := Toast("Please select a date and time", None, false)
  const PastDateToast := Toast("Cannot schedule meetings in the past", None, false)
  const ScheduledToast := Toast("Meeting Scheduled", None, false)
  const CreatedToast := Toast("Meeting Created", None, false)
  const EmptyLinkToast := Toast("Please enter a meeting link or ID", None, false)
  const InvalidLinkToast := Toast("Invalid meeting link or ID", None, false)
  const LinkCopiedToast := Toast("Link Copied", None, false)

  function FailedToast(message: string): Toast
  {
    Toast("Failed to create meeting", Some(message), true)
  }

  /** What the controller asks of the outside world, in order. */
  datatype Effect =
    | ShowToast(toast: Toast)
    | GetOrCreate(callType: string, id: string, startsAt: int, description: string)
    | Navigate(path: string)
    | CopyToClipboard(text: string)

  /** The router path of a meeting page. */
  function MeetingPagePath(id: string): (r: string)
    ensures |r| == |MeetingPath| + |id|
    ensures r[..|MeetingPath|] == MeetingPath && r[|MeetingPath|..] == id
  {
    MeetingPath + id
  }

  /**
   * The shareable link `${base}/meeting/${callDetail?.id}`: with no call the template
   * literal prints `undefined` in place of the identifier.
   */
  function MeetingLink(base: string, callDetail: Option<CallRef>): (r: string)
    ensures callDetail.Some? ==> r == base + MeetingPagePath(callDetail.value.id)
    ensures callDetail.None? ==> r == base + "/meeting/undefined"
  {
    base + MeetingPath + (match callDetail case Some(c) => c.id case None => Undefined)
  }

  /**
   * The meeting identifier in a trimmed input: the input itself when it has no
   * "/meeting/", otherwise the text after the first "/meeting/", cut at the next
   * "/meeting/" or at the first "?" (`split('/meeting/')[1].split('?')[0]`).
   */
  function ExtractMeetingId(s: string): (r: string)
    ensures !Occurs(s, MeetingPath) ==> r == s
    ensures Occurs(s, MeetingPath) ==>
      var after := s[IndexOf(s, MeetingPath).value + |MeetingPath|..];
      && IsPrefixOf(r, after)
      && !Occurs(r, "?") && !Occurs(r, MeetingPath)
      && (|r| == |after| || after[|r|] == '?' || OccursAt(after, MeetingPath, |r|))
      && (forall k: nat :: k < |r| ==> !OccursAt(after, MeetingPath, k))
  {
    if IndexOf(s, MeetingPath).None? then s
    else
      var part := SecondPart(s, MeetingPath);
      var r := Before(part, "?");
      assert !Occurs(r, MeetingPath) by {
        forall k: nat | k + |MeetingPath| <= |r| ensures !OccursAt(r, MeetingPath, k) {
          assert part[k..k + |MeetingPath|] == r[k..k + |MeetingPath|];
          assert !OccursAt(part, MeetingPath, k);
        }
      }
      assert |r| < |part| ==> part[|r|] == '?' by {
        if |r| < |part| { assert OccursAt(part, "?", |r|); assert part[|r|..|r| + 1] == "?"; }
      }
      r
  }

  datatype JoinError = EmptyInput | InvalidLink

  /**
   * The join handler's parse: whitespace-only input is `EmptyInput`; otherwise the
   * identifier extracted from the trimmed input, or `InvalidLink` when that is empty.
   */
  function ParseJoinInput(link: string): (r: Result<string, JoinError>)
    ensures r == Err(EmptyInput) <==> AllWhitespace(link)
    ensures r.Ok? ==> r.value != "" && r.value == ExtractMeetingId(Trim(link))
    ensures r == Err(InvalidLink) <==> !AllWhitespace(link) && ExtractMeetingId(Trim(link)) == ""
    ensures !AllWhitespace(link) && !Occurs(Trim(link), MeetingPath) ==> r == Ok(Trim(link))
    ensures r.Ok? && Occurs(Trim(link), MeetingPath) ==> !Occurs(r.value, "?") && !Occurs(r.value, MeetingPath)
  {
    TrimEmptyIff(link);
    var trimmed := Trim(link);
    if trimmed == "" then Err(EmptyInput)
    else
      var id := ExtractMeetingId(trimmed);
      if id == "" then Err(InvalidLink) else Ok(id)
  }

  /** A bare identifier without surrounding whitespace and without "/meeting/" is taken as it is. */
  lemma BareIdParses(id: string)
    requires id != "" && IsTrimmed(id) && !Occurs(id, MeetingPath)
    ensures ParseJoinInput(id) == Ok(id)
  {
    TrimOfTrimmed(id);
    TrimEmptyIff(id);
  }

  /**
   * The link the controller shares parses back to the call's identifier, for a base
   * that neither starts with whitespace nor holds "/meeting/" (even across its end) and
   * an identifier as `crypto.randomUUID` makes them: non-empty, not ending in whitespace,
   * without "?" and without "/meeting/".
   */
  lemma {:induction false} MeetingLinkRoundTrip(base: string, id: string)
    requires BaseOk(base)
    requires id != "" && !IsWhitespace(id[|id| - 1])
    requires !Occurs(id, "?") && !Occurs(id, MeetingPath)
    ensures ParseJoinInput(MeetingLink(base, Some(CallRef(id)))) == Ok(id)
  {
    ParseAfterBase(base, id);
  }

  lemma LinkIsTrimmed(base: string, id: string)
    requires base == "" || !IsWhitespace(base[0])
    requires id != "" && !IsWhitespace(id[|id| - 1])
    ensures IsTrimmed(base + MeetingPath + id)
  {
    var link := base + MeetingPath + id;
    assert link[|link| - 1] == id[|id| - 1];
    if base == "" { assert link[0] == '/'; } else { assert link[0] == base[0]; }
  }

  /** With no created call the shared link reads ".../meeting/undefined", which joins a meeting named "undefined". */
  lemma LinkWithoutCallParsesToUndefined(base: string)
    requires BaseOk(base)
    ensures ParseJoinInput(MeetingLink(base, None)) == Ok("undefined")
  {
    forall k: nat ensures !OccursAt(Undefined, "?", k) {
      if k + 1 <= |Undefined| { assert Undefined[k..k + 1][0] == Undefined[k]; }
    }
    forall k: nat ensures !OccursAt(Undefined, MeetingPath, k) {
      if k == 0 { assert Undefined[0..|MeetingPath|][0] == Undefined[0] != MeetingPath[0]; }
    }
    MeetingLinkRoundTrip(base, Undefined);
  }

  /** A base origin that can precede "/meeting/" in a link without disturbing the parse. */
  ghost predicate BaseOk(base: string)
  {
    (base == "" || !IsWhitespace(base[0])) && !Occurs(base + "/meeting", MeetingPath)
  }

  /**
   * In `base + "/meeting/" + rest`, the first "/meeting/" is the one after the base, so
   * the identifier is taken from `rest`.
   */
  lemma ExtractAfterBase(base: string, rest: string)
    requires BaseOk(base)
    ensures ExtractMeetingId(base + MeetingPath + rest) == Before(Before(rest, MeetingPath), "?")
  {
    var link := base + MeetingPath + rest;
    assert MeetingPath[..|MeetingPath| - 1] == "/meeting";
    IndexOfAfterPrefix(base, MeetingPath, rest);
    assert link[|base| + |MeetingPath|..] == rest;
  }

  /**
   * "/meeting/" straight after the first "/meeting/" leaves an empty identifier, even though
   * the two overlap on their "/": `x/meeting//meeting/meeting/` has no meeting identifier.
   */
  lemma DoubledPathIsEmpty(base: string, rest: string)
    requires BaseOk(base)
    ensures ExtractMeetingId(base + MeetingPath + (MeetingPath + rest)) == ""
  {
    ExtractAfterBase(base, MeetingPath + rest);
    var t := MeetingPath + rest;
    assert OccursAt(t, MeetingPath, 0) by { assert t[..|MeetingPath|] == MeetingPath; }
  }

  /** The parse of `base + "/meeting/" + rest`, when the link has nothing to trim. */
  lemma ParseAfterBase(base: string, rest: string)
    requires BaseOk(base) && rest != "" && !IsWhitespace(rest[|rest| - 1])
    ensures ParseJoinInput(base + MeetingPath + rest) ==
      var id := Before(Before(rest, MeetingPath), "?");
      if id == "" then Err(InvalidLink) else Ok(id)
  {
    var link := base + MeetingPath + rest;
    LinkIsTrimmed(base, rest);
    TrimOfTrimmed(link);
    TrimEmptyIff(link);
    ExtractAfterBase(base, rest);
  }

  /**
   * An invitation link with a query string yields the identifier between "/meeting/"
   * and the "?": `https://host/meeting/xyz?ref=1` gives `xyz`.
   */
  lemma {:induction false} LinkWithQueryParses(base: string, id: string, query: string)
    requires BaseOk(base)
    requires id != "" && !Occurs(id, "?") && !Occurs(id, MeetingPath)
    requires query == "" || !IsWhitespace(query[|query| - 1])
    ensures ParseJoinInput(base + MeetingPath + id + "?" + query) == Ok(id)
  {
    var rest := id + "?" + query;
    assert base + MeetingPath + id + "?" + query == base + MeetingPath + rest;
    ParseAfterBase(base, rest);
    IdBeforeQuery(id, query);
  }

  /** The identifier part of `id + "?" + query` is `id`, whatever the query holds. */
  lemma IdBeforeQuery(id: string, query: string)
    requires !Occurs(id, "?") && !Occurs(id, MeetingPath)
    ensures Before(Before(id + "?" + query, MeetingPath), "?") == id
  {
    var rest := id + "?" + query;
    forall k: nat | k <= |id| ensures !OccursAt(rest, MeetingPath, k) {
      if k < |id| { NoMeetingPathAt(id, query, k); } else { assert rest[k] == '?'; }
    }
    BeforeBeyond(rest, MeetingPath, |id|);
    var b := Before(rest, MeetingPath);
    assert b[..|id|] == id && b[|id|] == '?';
    BeforeFirstChar(b, '?', |id|);
  }

  /** No "/meeting/" starts inside `id` in `id + "?" + query`, when none occurs in `id`. */
  lemma NoMeetingPathAt(id: string, query: string, k: nat)
    requires k < |id| && !Occurs(id, MeetingPath)
    ensures !OccursAt(id + "?" + query, MeetingPath, k)
  {
    var rest := id + "?" + query;
    if k + |MeetingPath| <= |id| {
      assert id[k..k + |MeetingPath|] == rest[k..k + |MeetingPath|] && !OccursAt(id, MeetingPath, k);
    } else if k + |MeetingPath| <= |rest| {
      assert rest[k..k + |MeetingPath|][|id| - k] == '?';
    }
  }

  /** "/meeting/" followed directly by "?" yields an empty identifier: `host/meeting/?x` is invalid. */
  lemma {:induction false} EmptyIdIsInvalid(base: string, query: string)
    requires BaseOk(base)
    requires query == "" || !IsWhitespace(query[|query| - 1])
    ensures ParseJoinInput(base + MeetingPath + "?" + query) == Err(InvalidLink)
  {
    var rest := "?" + query;
    assert base + MeetingPath + "?" + query == base + MeetingPath + rest;
    ParseAfterBase(base, rest);
    EmptyIdBeforeQuery(query);
  }

  /** The identifier part of `"?" + query` is empty. */
  lemma EmptyIdBeforeQuery(query: string)
    ensures Before(Before("?" + query, MeetingPath), "?") == ""
  {
    var rest := "?" + query;
    assert !OccursAt(rest, MeetingPath, 0) by { assert rest[0] == '?'; }
    BeforeBeyond(rest, MeetingPath, 0);
    BeforeFirstChar(Before(rest, MeetingPath), '?', 0);
  }

  /** Input that is only whitespace is rejected as empty. */
  lemma BlankInputExample()
    ensures ParseJoinInput(" \t ") == Err(EmptyInput)
  {
  }

  /** What `createMeeting` does up to its await, decided by its guards in source order. */
  datatype CreateStep =
    | NotAuthenticated
    | MissingDateTime
    | PastDateTime
    | ThrowsBeforeRequest(message: string)
    | RequestCreate(startsAt: int, description: string)

  /**
   * The guards of `createMeeting`, in order: authentication, then (when scheduling) a
   * missing date, then (when scheduling) a date before `now`; then the call object and
   * the date conversion, which throw; otherwise the remote create with the chosen time
   * and the entered description, "Instant Meeting" when empty.
   */
  function CreateStepFor(clientReady: bool, signedIn: bool, mode: MeetingState, v: Values,
                         now: int, callObjectCreated: bool): (r: CreateStep)
    ensures r == NotAuthenticated <==> !clientReady || !signedIn
    ensures r == MissingDateTime <==> clientReady && signedIn && mode == Schedule && v.dateTime.None?
    ensures r == PastDateTime <==>
      clientReady && signedIn && mode == Schedule && v.dateTime.Some? && v.dateTime.value < now
    ensures r.RequestCreate? <==>
      clientReady && signedIn && callObjectCreated && v.dateTime.Some?
      && (mode == Schedule ==> v.dateTime.value >= now)
    ensures r.ThrowsBeforeRequest? ==>
      r.message == (if !callObjectCreated then NoCallObjectMessage else NullDateMessage)
    ensures r.RequestCreate? ==> r.startsAt == v.dateTime.value
    ensures r.RequestCreate? ==> r.description == (if v.description == "" then DefaultDescription else v.description)
  {
    if !clientReady || !signedIn then NotAuthenticated
    else if mode == Schedule && v.dateTime.None? then MissingDateTime
    else if mode == Schedule && v.dateTime.value < now then PastDateTime
    else if !callObjectCreated then ThrowsBeforeRequest(NoCallObjectMessage)
    else if v.dateTime.None? then ThrowsBeforeRequest(NullDateMessage)
    else RequestCreate(v.dateTime.value, if v.description == "" then DefaultDescription else v.description)
  }

  /** The description shown in the failure toast: the error's message, or "Unknown error". */
  function FailureMessage(reason: Option<string>): (r: string)
    ensures reason.Some? ==> r == reason.value
    ensures reason.None? ==> r == "Unknown error"
  {
    if reason.Some? then reason.value else "Unknown error"
  }

  /** A `createMeeting` suspended at its await: the call's identifier and the mode it captured. */
  datatype PendingCreate = PendingCreate(id: string, mode: MeetingState)

  /** Which modal the page shows, or the loader when the client or the user is missing. */
  datatype View =
    | Loading
    | Cards(modal: Modal)

  datatype Modal =
    | NoModal
    | ScheduleForm(busy: bool)
    | MeetingCreated(link: string)
    | JoinForm
    | InstantForm(busy: bool)
    | InstantLink(link: string)

  class Controller {
    /** `initialValues`, built once when the module loads, so its date is the load time. */
    const initialValues: Values
    /** The configured base origin of shared links. */
    const baseUrl: string
    var meetingState: MeetingState
    var values: Values
    var callDetail: Option<CallRef>
    var isCreatingMeeting: bool
    var pending: seq<PendingCreate>
    var effects: seq<Effect>

    /**
     * The busy flag is only set while some creation awaits the remote, and the
     * instant-link modal is only ever shown for a created call.
     */
    ghost predicate Valid()
      reads this
    {
      && (isCreatingMeeting ==> pending != [])
      && (meetingState == ShowingInstantLink ==> callDetail.Some?)
    }

    constructor (loadTime: int, baseUrl: string)
      ensures Valid()
      ensures initialValues == Values(Some(loadTime), "", "") && this.baseUrl == baseUrl
      ensures meetingState == Closed && values == initialValues && callDetail == None
      ensures !isCreatingMeeting && pending == [] && effects == []
    {
      initialValues := Values(Some(loadTime), "", "");
      this.baseUrl := baseUrl;
      meetingState := Closed;
      values := Values(Some(loadTime), "", "");
      callDetail := None;
      isCreatingMeeting := false;
      pending := [];
      effects := [];
    }

    /**
     * What the page renders: the loader without a client and a user; otherwise the modal
     * that `meetingState` opens, the schedule slot showing the form until a call exists.
     */
    function Render(clientReady: bool, signedIn: bool): (v: View)
      reads this
      ensures v == Loading <==> !clientReady || !signedIn
      ensures v.Cards? ==> (v.modal == NoModal <==> meetingState == Closed)
      ensures v.Cards? ==> (v.modal.ScheduleForm? <==> meetingState == Schedule && callDetail.None?)
      ensures v.Cards? ==> (v.modal.MeetingCreated? <==> meetingState == Schedule && callDetail.Some?)
      ensures v.Cards? ==> (v.modal == JoinForm <==> meetingState == Joining)
      ensures v.Cards? ==> (v.modal.InstantForm? <==> meetingState == Instant)
      ensures v.Cards? ==> (v.modal.InstantLink? <==> meetingState == ShowingInstantLink)
      ensures v.Cards? && (v.modal.ScheduleForm? || v.modal.InstantForm?) ==> v.modal.busy == isCreatingMeeting
      ensures v.Cards? && (v.modal.MeetingCreated? || v.modal.InstantLink?) ==>
        v.modal.link == MeetingLink(baseUrl, callDetail)
    {
      if !clientReady || !signedIn then Loading
      else
        var link := MeetingLink(baseUrl, callDetail);
        Cards(match meetingState
          case Closed => NoModal
          case Schedule => if callDetail.None? then ScheduleForm(isCreatingMeeting) else MeetingCreated(link)
          case Joining => JoinForm
          case Instant => InstantForm(isCreatingMeeting)
          case ShowingInstantLink => InstantLink(link))
    }

    /** The instant-link modal always shows the created call's link, never ".../undefined". */
    lemma InstantLinkShowsCreatedCall(clientReady: bool, signedIn: bool)
      requires Valid()
      ensures var v := Render(clientReady, signedIn);
        v.Cards? && v.modal.InstantLink? ==>
          callDetail.Some? && v.modal.link == baseUrl + MeetingPagePath(callDetail.value.id)
    {
    }

    /** The reset effect: with no modal state and no created call, the values return to `initialValues`. */
    method ResetEffect()
      requires Valid()
      modifies this`values
      ensures Valid()
      ensures values == (if meetingState == Closed && callDetail.None? then initialValues else old(values))
    {
      if meetingState == Closed {
        if callDetail.None? {
          values := initialValues;
        }
      }
    }

    /** The "New Meeting" card. */
    method OpenInstant()
      requires Valid()
      modifies this`meetingState
      ensures Valid() && meetingState == Instant
    {
      meetingState := Instant;
    }

    /** The "Join Meeting" card. */
    method OpenJoin()
      requires Valid()
      modifies this`meetingState
      ensures Valid() && meetingState == Joining
    {
      meetingState := Joining;
    }

    /** The "Schedule Meeting" card. */
    method OpenSchedule()
      requires Valid()
      modifies this`meetingState
      ensures Valid() && meetingState == Schedule
    {
      meetingState := Schedule;
    }

    /** The "View Recordings" card navigates to the recordings page. */
    method ViewRecordings()
      requires Valid()
      modifies this`effects
      ensures Valid()
      ensures effects == old(effects) + [Navigate("/recordings")]
    {
      effects := effects + [Navigate("/recordings")];
    }

    /** The description field. */
    method EditDescription(description: string)
      requires Valid()
      modifies this`values
      ensures Valid()
      ensures values == old(values).(description := description)
    {
      values := values.(description := description);
    }

    /** The date picker; `None` is a cleared picker. */
    method EditDateTime(dateTime: Option<int>)
      requires Valid()
      modifies this`values
      ensures Valid()
      ensures values == old(values).(dateTime := dateTime)
    {
      values := values.(dateTime := dateTime);
    }

    /** The link field of the join modal. */
    method EditLink(link: string)
      requires Valid()
      modifies this`values
      ensures Valid()
      ensures values == old(values).(link := link)
    {
      values := values.(link := link);
    }

    /**
     * `createMeeting` up to its await. Without a client or a user: only the authentication
     * toast. A missing or past date when scheduling: only its toast, and the `finally`
     * clears the busy flag. A throw before the request: the failure toast and the flag
     * cleared. Otherwise: the busy flag set and exactly one remote create issued, with the
     * call's identifier and the mode captured until it settles.
     */
    method CreateMeeting(clientReady: bool, signedIn: bool, now: int, id: string, callObjectCreated: bool)
      requires Valid()
      modifies this`isCreatingMeeting, this`pending, this`effects
      ensures Valid()
      ensures var step := CreateStepFor(clientReady, signedIn, meetingState, values, now, callObjectCreated);
        && (step == NotAuthenticated ==>
              effects == old(effects) + [ShowToast(AuthToast)]
              && isCreatingMeeting == old(isCreatingMeeting) && pending == old(pending))
        && (step == MissingDateTime ==>
              effects == old(effects) + [ShowToast(MissingDateToast)] && !isCreatingMeeting && pending == old(pending))
        && (step == PastDateTime ==>
              effects == old(effects) + [ShowToast(PastDateToast)] && !isCreatingMeeting && pending == old(pending))
        && (step.ThrowsBeforeRequest? ==>
              effects == old(effects) + [ShowToast(FailedToast(step.message))]
              && !isCreatingMeeting && pending == old(pending))
        && (step.RequestCreate? ==>
              effects == old(effects) + [GetOrCreate(CallType, id, step.startsAt, step.description)]
              && isCreatingMeeting && pending == old(pending) + [PendingCreate(id, meetingState)])
    {
      if !clientReady || !signedIn {
        effects := effects + [ShowToast(AuthToast)];
        return;
      }
      if meetingState == Schedule && values.dateTime.None? {
        effects := effects + [ShowToast(MissingDateToast)];
        isCreatingMeeting := false;
        return;
      }
      if meetingState == Schedule && values.dateTime.value < now {
        effects := effects + [ShowToast(PastDateToast)];
        isCreatingMeeting := false;
        return;
      }
      isCreatingMeeting := true;
      if !callObjectCreated {
        effects := effects + [ShowToast(FailedToast(NoCallObjectMessage))];
        isCreatingMeeting := false;
        return;
      }
      if values.dateTime.None? {
        effects := effects + [ShowToast(FailedToast(NullDateMessage))];
        isCreatingMeeting := false;
        return;
      }
      var startsAt := values.dateTime.value;
      var description := if values.description == "" then DefaultDescription else values.description;
      effects := effects + [GetOrCreate(CallType, id, startsAt, description)];
      pending := pending + [PendingCreate(id, meetingState)];
    }

    /**
     * `createMeeting` after its await, for the `k`-th pending creation. Resolved: the call
     * becomes `callDetail`, an instant meeting moves to showing its link, and the success
     * toast names the captured mode. Rejected: the failure toast with the error's message.
     * Either way the `finally` clears the busy flag.
     */
    method CreateMeetingSettled(k: nat, outcome: Outcome)
      requires Valid() && k < |pending|
      modifies this`meetingState, this`callDetail, this`isCreatingMeeting, this`pending, this`effects
      ensures Valid() && !isCreatingMeeting
      ensures pending == old(pending[..k] + pending[k + 1..])
      ensures var p := old(pending[k]);
        && (outcome.Resolved? ==>
              && callDetail == Some(CallRef(p.id))
              && meetingState == (if p.mode == Instant then ShowingInstantLink else old(meetingState))
              && effects == old(effects) + [ShowToast(if p.mode == Schedule then ScheduledToast else CreatedToast)])
        && (outcome.Rejected? ==>
              && callDetail == old(callDetail) && meetingState == old(meetingState)
              && effects == old(effects) + [ShowToast(FailedToast(FailureMessage(outcome.message)))])
    {
      var p := pending[k];
      pending := pending[..k] + pending[k + 1..];
      if outcome.Resolved? {
        callDetail := Some(CallRef(p.id));
        if p.mode == Instant {
          meetingState := ShowingInstantLink;
        }
        effects := effects + [ShowToast(if p.mode == Schedule then ScheduledToast else CreatedToast)];
      } else {
        effects := effects + [ShowToast(FailedToast(FailureMessage(outcome.message)))];
      }
      isCreatingMeeting := false;
    }

    /** "Join Meeting Now": navigates to the created call's page, and does nothing without one. */
    method JoinMeeting()
      requires Valid()
      modifies this`effects
      ensures Valid()
      ensures effects == old(effects) + (if callDetail.Some? then [Navigate(MeetingPagePath(callDetail.value.id))] else [])
    {
      if callDetail.Some? {
        effects := effects + [Navigate(MeetingPagePath(callDetail.value.id))];
      }
    }

    /** "Copy Meeting Link" (both confirmation modals): the link goes to the clipboard, then a toast. */
    method CopyMeetingLink()
      requires Valid()
      modifies this`effects
      ensures Valid()
      ensures effects == old(effects) + [CopyToClipboard(MeetingLink(baseUrl, callDetail)), ShowToast(LinkCopiedToast)]
    {
      effects := effects + [CopyToClipboard(MeetingLink(baseUrl, callDetail)), ShowToast(LinkCopiedToast)];
    }

    /**
     * The join modal's button: an input empty after trimming gets its toast, an input that
     * yields no identifier gets the invalid-link toast, and otherwise the page of the
     * parsed identifier is opened. Exactly one effect either way.
     */
    method HandleJoinClick()
      requires Valid()
      modifies this`effects
      ensures Valid()
      ensures var r := ParseJoinInput(values.link);
        && (r == Err(EmptyInput) ==> effects == old(effects) + [ShowToast(EmptyLinkToast)])
        && (r == Err(InvalidLink) ==> effects == old(effects) + [ShowToast(InvalidLinkToast)])
        && (r.Ok? ==> effects == old(effects) + [Navigate(MeetingPagePath(r.value))])
    {
      var parsed := ParseJoinInput(values.link);
      match parsed
      case Err(EmptyInput) => effects := effects + [ShowToast(EmptyLinkToast)];
      case Err(InvalidLink) => effects := effects + [ShowToast(InvalidLinkToast)];
      case Ok(meetingId) => effects := effects + [Navigate(MeetingPagePath(meetingId))];
    }

    /**
     * Closing the schedule slot: the form's close only clears the modal state; the
     * "Meeting Created" confirmation's close also clears the created call.
     */
    method CloseScheduleSlot()
      requires Valid()
      modifies this`meetingState, this`callDetail
      ensures Valid() && meetingState == Closed && callDetail == None
    {
      if callDetail.None? {
        meetingState := Closed;
      } else {
        meetingState := Closed;
        callDetail := None;
      }
    }

    /** Closing the join modal clears the modal state and the link field only. */
    method CloseJoinModal()
      requires Valid()
      modifies this`meetingState, this`values
      ensures Valid() && meetingState == Closed && values == old(values).(link := "")
    {
      meetingState := Closed;
      values := values.(link := "");
    }

    /** Closing the instant-meeting modal clears the modal state only. */
    method CloseInstantModal()
      requires Valid()
      modifies this`meetingState
      ensures Valid() && meetingState == Closed
    {
      meetingState := Closed;
    }

    /** Closing the instant-link modal clears the modal state and the created call. */
    method CloseInstantLinkModal()
      requires Valid()
      modifies this`meetingState, this`callDetail
      ensures Valid() && meetingState == Closed && callDetail == None
    {
      meetingState := Closed;
      callDetail := None;
    }
  }

  /**
   * Scheduling a meeting for a future time with a description issues one remote create
   * with that time and text; once it resolves the confirmation shows the call's link.
   */
  method ScheduleScenario(loadTime: int, now: int, startsAt: int, id: string)
    requires now <= startsAt
  {
    var c := new Controller(loadTime, "https://host");
    c.OpenSchedule();
    c.EditDescription("Standup");
    c.EditDateTime(Some(startsAt));
    c.CreateMeeting(true, true, now, id, true);
    assert c.effects == [GetOrCreate("default", id, startsAt, "Standup")];
    assert c.isCreatingMeeting && c.pending == [PendingCreate(id, Schedule)];
    var busy := c.Render(true, true);
    assert busy == Cards(ScheduleForm(true));
    c.CreateMeetingSettled(0, Resolved);
    assert c.callDetail == Some(CallRef(id)) && !c.isCreatingMeeting && c.meetingState == Schedule;
    var done := c.Render(true, true);
    assert done.modal.MeetingCreated? && done.modal.link == "https://host" + MeetingPagePath(id);
  }
}
