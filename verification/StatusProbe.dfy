/**
 The status probe of `room_info.go` (lines 698-748, 803-870, 1000-1060 and 1100-1182): ask web/enter, fall
 back to the live page, ask web/enter again, and decide from what was heard. One probe runs at a time, under
 the context lock; the responses of the upstream are arbitrary.
 */
module StatusProbe {
  import opened Options
  import Text

  // ----- errors

  datatype Sentinel = RoomNotFound | StatusUnknown | AccessRestricted | RoomInfoEmpty | PageStateNotFound

  /** What the code can tell of an error: the sentinels it wraps, and whether its text contains that of
      the empty-response error. */
  datatype Error = Error(wraps: set<Sentinel>, mentionsEmpty: bool)

  const EMPTY := Error({RoomInfoEmpty}, true)
  const OTHER := Error({}, false)

  predicate IsRoomInfoEmpty(e: Error) {
    RoomInfoEmpty in e.wraps || e.mentionsEmpty
  }

  // ----- what the upstream answers

  /** A valid web/enter body: the fields that parseRoomInfo and parseLiveStatusFromRoomEnter extract. */
  datatype Enter = Enter(roomID: string, pushID: string, liveName: string, title: string, status: Option<bool>)

  /** The outcome of one web/enter request. */
  datatype Reply = Body(enter: Enter) | Empty | Failed

  datatype PageState = PageState(
    roomID: string, pushID: string, liveName: string, title: string, anchorOnly: bool, hasAnchorIdentity: bool,
      status: Option<bool>)

  datatype PageReply = Page(statusCode: int, state: PageState) | PageFailed

  /** What livePageErr can be. */
  datatype PageError = NoPageError | NoIdentity(statusCode: int) | OtherPageError

  /** Everything one probe meets. `refused` tells that the listener is closed or that its request context
      cannot be prepared, and `joined` whether the retry helper reports all errors or the last. */
  datatype World =
    World(refused: bool, first: Reply, cancelled: bool, page: PageReply, replies: nat -> Reply, joined: bool)

  datatype Result = Verdict(live: bool) | Failure(error: Error)

  // ----- the listener fields that the probe reads and writes

  datatype Meta = Meta(roomID: string, pushID: string, liveName: string, title: string, anchorOnly: bool)

  datatype State = State(meta: Meta, isLive: bool, known: bool)

  predicate Blank(s: string) {
    Text.Trim(s) == ""
  }

  function Kept(update: string, current: string): string {
    if update != "" then update else current
  }

  /** updateRoomInfoFromEnter. */
  function MergedEnter(m: Meta, e: Enter): Meta {
    Meta(Kept(e.roomID, m.roomID), if m.pushID == "" then e.pushID else m.pushID, Kept(e.liveName, m.liveName),
         Kept(e.title, m.title),
         if e.roomID != "" then false else m.anchorOnly)
  }

  /** updateRoomInfoFromLivePage. */
  function MergedPage(m: Meta, p: PageState): Meta {
    Meta(if p.anchorOnly then "" else Kept(p.roomID, m.roomID), Kept(p.pushID, m.pushID), Kept(p.liveName, m.liveName),
         Kept(p.title, m.title),
         if p.anchorOnly then true else if p.roomID != "" then false else m.anchorOnly)
  }

  predicate KnownLive(s: State) {
    s.known && s.isLive
  }

  predicate KnownOffline(s: State) {
    s.known && !s.isLive
  }

  function SetLive(s: State, status: Option<bool>): State {
    if status.Some? then s.(isLive := status.value, known := true) else s
  }

  predicate HasTrace(m: Meta) {
    m.roomID != "" || !Blank(m.liveName) || !Blank(m.title) || m.anchorOnly
  }

  /** parseRoomInfo succeeds. */
  predicate Parses(e: Enter) {
    e.roomID != "" && e.pushID != ""
  }

  predicate HasIdentity(p: PageState) {
    !Blank(p.roomID) || p.hasAnchorIdentity
  }

  // ----- the live page

  /** fetchLivePageStateWithContext. */
  function AfterPage(s: State, page: PageReply): (State, PageError) {
    var s0 := s.(known := false);
    match page
    case PageFailed => (s0, OtherPageError)
    case Page(code, state) =>
      if !HasIdentity(state) then (s0, NoIdentity(code))
      else (SetLive(s0.(meta := MergedPage(s0.meta, state)), state.status), NoPageError)
  }

  predicate Definitive(e: PageError) {
    e.NoIdentity? && e.statusCode in {404, 410}
  }

  // ----- web/enter after the page

  /** roomEnterFallbackBody: the response that stands in for an empty one when the page said live. */
  function Fallback(s: State, e: Error): Option<Enter> {
    if !IsRoomInfoEmpty(e) || !KnownLive(s) || s.meta.roomID == "" || s.meta.pushID == "" then None
    else Some(Enter(s.meta.roomID, s.meta.pushID, s.meta.liveName, s.meta.title, Some(true)))
  }

  /** roomNotFoundErrorAfterRoomEnter. */
  predicate NotFoundAfterEnter(s: State, e: Error, pageError: PageError) {
    IsRoomInfoEmpty(e) && !KnownOffline(s) && !HasTrace(s.meta) && Definitive(pageError)
  }

  /** The room's shouldRetryRoomEnter. */
  predicate ShouldRetry(s: State, e: Error) {
    IsRoomInfoEmpty(e) && !KnownOffline(s) && Fallback(s, e).None?
  }

  function ErrorOf(r: Reply): Error
    requires !r.Body?
  {
    if r.Empty? then EMPTY else OTHER
  }

  /** The error that the retry helper returns after these attempts. */
  function Reported(joined: bool, earlier: Error, last: Error): Error {
    if joined then Error(earlier.wraps + last.wraps, earlier.mentionsEmpty || last.mentionsEmpty) else last
  }

  datatype Attempted = Got(enter: Enter) | GaveUp(error: Error)

  /** From attempt `i` on; `earlier` collects the errors so far. */
  function AttemptsFrom(s: State, w: World, limit: nat, i: nat, earlier: Error): Attempted
    requires i < limit
    decreases limit - i
  {
    var r := w.replies(i);
    if r.Body? then Got(r.enter)
    else
      var reported := Reported(w.joined, earlier, ErrorOf(r));
      if ShouldRetry(s, ErrorOf(r)) && i + 1 < limit then AttemptsFrom(s, w, limit, i + 1, reported)
        else GaveUp(reported)
  }

  function Limit(pageError: PageError): nat {
    if pageError.NoIdentity? && !Definitive(pageError) then 1 else 3
  }

  datatype Refreshed = Data(enter: Enter) | RefreshError(error: Error)

  /** refreshRoomEnterDataAfterLivePage. */
  function AfterEnter(s: State, pageError: PageError, w: World): (State, Refreshed) {
    match AttemptsFrom(s, w, Limit(pageError), 0, OTHER)
    case Got(e) => Stored(s, e)
    case GaveUp(error) =>
      if NotFoundAfterEnter(s, error, pageError) then (s, RefreshError(Error({RoomNotFound}, false)))
      else if Fallback(s, error).Some? then Stored(s, Fallback(s, error).value)
      else if IsRoomInfoEmpty(error) && pageError.NoIdentity? && !Definitive(pageError)
      then (s, RefreshError(Error({StatusUnknown, AccessRestricted}, true)))
      else (s, RefreshError(error))
  }

  /** The end of refreshRoomEnterDataAfterLivePage, for a body in hand. */
  function Stored(s: State, e: Enter): (State, Refreshed) {
    if !Parses(e) then (s, RefreshError(OTHER))
    else
      var t := SetLive(s, e.status);
      (t.(meta := MergedEnter(t.meta, e)), Data(e))
  }

  // ----- the whole probe

  predicate Conclusive(r: Reply) {
    r.Body? && Parses(r.enter) && r.enter.status.Some?
  }

  /** fetchLiveStatusFromAPIWithContext. */
  function Probed(s: State, w: World): (State, Result) {
    var s0 := s.(known := false);
    if w.refused then (s, Failure(OTHER))
    else if Conclusive(w.first) then
      (SetLive(s0.(meta := MergedEnter(s0.meta, w.first.enter)), w.first.enter.status),
       Verdict(w.first.enter.status.value))
    else if w.cancelled then (s0, Failure(OTHER))
    else
      var (s1, pageError) := AfterPage(s0, w.page);
      if pageError.NoPageError? && KnownLive(s1) && HasTrace(s1.meta) then (s1, Verdict(true))
      else
        var (s2, r) := AfterEnter(s1, pageError, w);
        match r
        case Data(e) => (s2, if e.status.Some? then Verdict(e.status.value) else Failure(Error({StatusUnknown}, false)))
        case RefreshError(error) => (s2, Explained(s2, error))
  }

  /** What the probe makes of a failed refresh. */
  function Explained(s: State, error: Error): Result {
    if IsRoomInfoEmpty(error) && KnownLive(s) && s.meta.roomID != "" && s.meta.pushID != "" then Verdict(true)
    else if IsRoomInfoEmpty(error) && KnownOffline(s) && HasTrace(s.meta) then Verdict(false)
    else if IsRoomInfoEmpty(error) && !KnownOffline(s) then Failure(Error({StatusUnknown}, error.mentionsEmpty))
    else Failure(error)
  }

  /** The listener with the steps of the probe as methods. */
  class Prober {
    var meta: Meta
    var isLive: bool
    var known: bool

    function View(): State
      reads this
    {
      State(meta, isLive, known)
    }

    constructor ()
      ensures View() == State(Meta("", "", "", "", false), false, false)
    {
      meta, isLive, known := Meta("", "", "", "", false), false, false;
    }

    method SetLiveStatus(live: bool)
      modifies this`isLive, this`known
      ensures View() == SetLive(old(View()), Some(live))
    {
      isLive := live;
      known := true;
    }

    method FetchLivePageState(page: PageReply) returns (e: PageError)
      modifies this
      ensures (View(), e) == AfterPage(old(View()), page)
    {
      known := false;
      match page {
        case PageFailed => return OtherPageError;
        case Page(code, state) =>
          if !HasIdentity(state) { return NoIdentity(code); }
          meta := MergedPage(meta, state);
          if state.status.Some? { SetLiveStatus(state.status.value); }
          return NoPageError;
      }
    }

    /** The retry loop around doRequest. */
    method RequestRoomEnter(w: World, limit: nat) returns (r: Attempted)
      requires limit > 0
      ensures r == AttemptsFrom(View(), w, limit, 0, OTHER)
    {
      var i: nat, earlier := 0, OTHER;
      while !w.replies(i).Body? && ShouldRetry(View(), ErrorOf(w.replies(i))) && i + 1 < limit
        invariant i < limit
        invariant AttemptsFrom(View(), w, limit, i, earlier) == AttemptsFrom(View(), w, limit, 0, OTHER)
        decreases limit - i
      {
        earlier := Reported(w.joined, earlier, ErrorOf(w.replies(i)));
        i := i + 1;
      }
      var reply := w.replies(i);
      if reply.Body? { return Got(reply.enter); }
      return GaveUp(Reported(w.joined, earlier, ErrorOf(reply)));
    }

    method StoreRoomEnter(e: Enter) returns (r: Refreshed)
      modifies this
      ensures (View(), r) == Stored(old(View()), e)
    {
      if !Parses(e) { return RefreshError(OTHER); }
      if e.status.Some? { SetLiveStatus(e.status.value); }
      meta := MergedEnter(meta, e);
      return Data(e);
    }

    method RefreshRoomEnterDataAfterLivePage(pageError: PageError, w: World) returns (r: Refreshed)
      modifies this
      ensures (View(), r) == AfterEnter(old(View()), pageError, w)
    {
      var attempted := RequestRoomEnter(w, Limit(pageError));
      match attempted {
        case Got(e) => r := StoreRoomEnter(e);
        case GaveUp(error) =>
          if NotFoundAfterEnter(View(), error, pageError) { return RefreshError(Error({RoomNotFound}, false)); }
          var fallback := Fallback(View(), error);
          if fallback.Some? {
            r := StoreRoomEnter(fallback.value);
          } else if IsRoomInfoEmpty(error) && pageError.NoIdentity? && !Definitive(pageError) {
            return RefreshError(Error({StatusUnknown, AccessRestricted}, true));
          } else {
            return RefreshError(error);
          }
      }
    }

    method FetchLiveStatusFromAPI(w: World) returns (r: Result)
      modifies this
      ensures (View(), r) == Probed(old(View()), w)
    {
      if w.refused { return Failure(OTHER); }
      known := false;
      if Conclusive(w.first) {
        meta := MergedEnter(meta, w.first.enter);
        SetLiveStatus(w.first.enter.status.value);
        return Verdict(w.first.enter.status.value);
      }
      if w.cancelled { return Failure(OTHER); }
      var pageError := FetchLivePageState(w.page);
      if pageError.NoPageError? && KnownLive(View()) && HasTrace(meta) { return Verdict(true); }
      var refreshed := RefreshRoomEnterDataAfterLivePage(pageError, w);
      match refreshed {
        case Data(e) =>
          return if e.status.Some? then Verdict(e.status.value) else Failure(Error({StatusUnknown}, false));
        case RefreshError(error) => return Explained(View(), error);
      }
    }
  }

  // ----- main results, for every state and every world

  /** The last attempt that the retry loop makes. */
  function LastAttempt(s: State, w: World, limit: nat, i: nat): nat
    requires i < limit
    decreases limit - i
  {
    var r := w.replies(i);
    if !r.Body? && ShouldRetry(s, ErrorOf(r)) && i + 1 < limit then LastAttempt(s, w, limit, i + 1) else i
  }

  lemma {:induction false} AttemptsGetTheLastReply(s: State, w: World, limit: nat, i: nat, earlier: Error)
    requires i < limit
    ensures var r := AttemptsFrom(s, w, limit, i, earlier);
      r.Got? ==> w.replies(LastAttempt(s, w, limit, i)) == Body(r.enter)
    decreases limit - i
  {
    var r := w.replies(i);
    if !r.Body? && ShouldRetry(s, ErrorOf(r)) && i + 1 < limit {
      AttemptsGetTheLastReply(s, w, limit, i + 1, Reported(w.joined, earlier, ErrorOf(r)));
    }
  }

  predicate Says(r: Reply, live: bool) {
    r.Body? && r.enter.status == Some(live)
  }

  /** A response that this very call received states `live`: the first web/enter reply if that was
      conclusive, else the page, or the last reply that the refresh asked for. */
  predicate StatedInCall(s: State, w: World, live: bool) {
    if w.refused then false
    else if Conclusive(w.first) then Says(w.first, live)
    else
      var (t, e) := AfterPage(s.(known := false), w.page);
      !w.cancelled && ((w.page.Page? && w.page.state.status == Some(live))
                       || Says(w.replies(LastAttempt(t, w, Limit(e), 0)), live))
  }

  /** After the page, a known status is the one the page stated. */
  lemma PageStatesKnown(s: State, page: PageReply)
    ensures var (t, e) := AfterPage(s, page);
            t.known ==> page.Page? && page.state.status == Some(t.isLive) && e.NoPageError?
  {
  }

  lemma DataIsStated(s: State, pageError: PageError, w: World)
    requires s.known ==> w.page.Page? && w.page.state.status == Some(s.isLive)
    ensures var (t, r) := AfterEnter(s, pageError, w);
            && (r.Data? && r.enter.status.Some? ==>
                  var live := r.enter.status.value;
                  && ((w.page.Page? && w.page.state.status == Some(live))
                      || Says(w.replies(LastAttempt(s, w, Limit(pageError), 0)), live))
                  && t.known && t.isLive == live)
            && (r.RefreshError? ==> t == s)
  {
    AttemptsGetTheLastReply(s, w, Limit(pageError), 0, OTHER);
    hide AttemptsFrom;
  }

  /** A verdict is always the status that some response received in the same call stated, and it is the
      status that the listener then holds as known. */
  lemma VerdictIsStated(s: State, w: World)
    ensures var (t, r) := Probed(s, w); r.Verdict? ==> StatedInCall(s, w, r.live) && t.known && t.isLive == r.live
  {
    var s0 := s.(known := false);
    PageStatesKnown(s0, w.page);
    var (s1, pageError) := AfterPage(s0, w.page);
    DataIsStated(s1, pageError, w);
    hide AfterPage, AfterEnter, HasTrace, MergedEnter, LastAttempt;
  }

  // ----- earlier conclusions play no part

  /** Equal in everything a decision may use: the live flag only counts while it is known. */
  predicate Alike(s: State, t: State) {
    s.meta == t.meta && s.known == t.known && (s.known ==> s.isLive == t.isLive)
  }

  lemma {:induction false} AlikeAttempts(s: State, t: State, w: World, limit: nat, i: nat, earlier: Error)
    requires Alike(s, t) && i < limit
    ensures AttemptsFrom(s, w, limit, i, earlier) == AttemptsFrom(t, w, limit, i, earlier)
    decreases limit - i
  {
    var r := w.replies(i);
    if !r.Body? && i + 1 < limit {
      AlikeAttempts(s, t, w, limit, i + 1, Reported(w.joined, earlier, ErrorOf(r)));
    }
  }

  lemma AlikeEnter(s: State, t: State, pageError: PageError, w: World)
    requires Alike(s, t)
    ensures Alike(AfterEnter(s, pageError, w).0, AfterEnter(t, pageError, w).0)
    ensures AfterEnter(s, pageError, w).1 == AfterEnter(t, pageError, w).1
  {
    AlikeAttempts(s, t, w, Limit(pageError), 0, OTHER);
    hide AttemptsFrom, HasTrace, MergedEnter;
  }

  lemma AlikePage(s: State, t: State, page: PageReply)
    requires Alike(s, t)
    ensures Alike(AfterPage(s, page).0, AfterPage(t, page).0) && AfterPage(s, page).1 == AfterPage(t, page).1
  {
    hide MergedPage, HasIdentity;
  }

  /** What an earlier probe concluded cannot change the outcome of this one: two listeners that differ only
      in the status they held before get the same result. */
  lemma EarlierStatusIsIgnored(s: State, t: State, w: World)
    requires s.meta == t.meta
    ensures Probed(s, w).1 == Probed(t, w).1
    ensures !w.refused ==> Alike(Probed(s, w).0, Probed(t, w).0)
  {
    var s0, t0 := s.(known := false), t.(known := false);
    AlikePage(s0, t0, w.page);
    var (s1, pageError) := AfterPage(s0, w.page);
    var (t1, _) := AfterPage(t0, w.page);
    AlikeEnter(s1, t1, pageError, w);
    hide AfterPage, AfterEnter, MergedEnter, HasTrace;
  }

  // ----- when a room is said not to exist

  /** The three attempts end without a body, and their error counts as empty. */
  predicate EndsEmpty(w: World) {
    w.replies(0).Empty? &&
    (if w.replies(1).Empty? then w.replies(2).Empty? || (w.replies(2).Failed? && w.joined)
     else w.replies(1).Failed? && w.joined)
  }

  lemma AttemptsOfUnknown(s: State, w: World)
    requires !s.known
    ensures var r := AttemptsFrom(s, w, 3, 0, OTHER);
            && (r.GaveUp? && IsRoomInfoEmpty(r.error) <==> EndsEmpty(w))
            && (r.GaveUp? ==> RoomNotFound !in r.error.wraps)
  {
    var e0 := if w.replies(0).Body? then OTHER else Reported(w.joined, OTHER, ErrorOf(w.replies(0)));
    var e1 := if w.replies(1).Body? then OTHER else Reported(w.joined, e0, ErrorOf(w.replies(1)));
    assert AttemptsFrom(s, w, 3, 2, e1) ==
           if w.replies(2).Body? then Got(w.replies(2).enter)
             else GaveUp(Reported(w.joined, e1, ErrorOf(w.replies(2))));
    assert !w.replies(1).Body? ==>
             AttemptsFrom(s, w, 3, 1, e0) == if w.replies(1).Empty? then AttemptsFrom(s, w, 3, 2, e1) else GaveUp(e1);
  }

  predicate SaysNotFound(r: Result) {
    r.Failure? && RoomNotFound in r.error.wraps
  }

  /** No attempt produces the sentinel of a missing room or of restricted access. */
  predicate Ordinary(e: Error) {
    RoomNotFound !in e.wraps && AccessRestricted !in e.wraps
  }

  lemma {:induction false} AttemptsAreOrdinary(s: State, w: World, limit: nat, i: nat, earlier: Error)
    requires i < limit && Ordinary(earlier)
    ensures var r := AttemptsFrom(s, w, limit, i, earlier); r.GaveUp? ==> Ordinary(r.error)
    decreases limit - i
  {
    var r := w.replies(i);
    if !r.Body? && i + 1 < limit {
      AttemptsAreOrdinary(s, w, limit, i + 1, Reported(w.joined, earlier, ErrorOf(r)));
    }
  }

  /** Exactly when a probe reports a missing room: the probe was let in, its first request inconclusive and not
      cut off, the page was a 404 or 410 without any identity, nothing is known of the room from before, and web/enter
      stayed empty. */
  lemma RoomNotFoundIff(s: State, w: World)
    ensures SaysNotFound(Probed(s, w).1) <==>
              && !w.refused && !Conclusive(w.first) && !w.cancelled
              && w.page.Page? && !HasIdentity(w.page.state) && w.page.statusCode in {404, 410}
              && !HasTrace(s.meta) && EndsEmpty(w)
  {
    var s0 := s.(known := false);
    var (s1, pageError) := AfterPage(s0, w.page);
    AttemptsAreOrdinary(s1, w, Limit(pageError), 0, OTHER);
    if pageError.NoIdentity? {
      AttemptsOfUnknown(s1, w);
    }
    hide AttemptsFrom, EndsEmpty, HasTrace, HasIdentity, MergedPage, MergedEnter, Fallback;
    NotFoundOnlyFromPage(s1, pageError, w);
    if !s1.known {
      NoFallbackUnknown(s1);
    }
  }

  lemma NoFallbackUnknown(s: State)
    requires !s.known
    ensures forall e :: Fallback(s, e) == None
  {
  }

  lemma NotFoundOnlyFromPage(s: State, pageError: PageError, w: World)
    ensures var (t, r) := AfterEnter(s, pageError, w);
            r.RefreshError? && RoomNotFound in r.error.wraps <==>
              var a := AttemptsFrom(s, w, Limit(pageError), 0, OTHER);
                a.GaveUp? && NotFoundAfterEnter(s, a.error, pageError)
  {
    AttemptsAreOrdinary(s, w, Limit(pageError), 0, OTHER);
    hide AttemptsFrom, NotFoundAfterEnter, Fallback, MergedEnter;
  }

  /** A page without identity that is neither a 404 nor a 410, followed by an empty web/enter, always ends
      as an unknown status, and the error no longer wraps the sentinel for restricted access. */
  lemma BlankPageIsUnknown(s: State, w: World)
    requires !w.refused && !Conclusive(w.first) && !w.cancelled && w.replies(0).Empty?
    requires w.page.Page? && !HasIdentity(w.page.state) && w.page.statusCode !in {404, 410}
    ensures Probed(s, w).1 == Failure(Error({StatusUnknown}, true))
  {
    hide HasTrace;
  }

  /** The sentinel for restricted access never reaches the caller of a probe, though the refresh inside
      returns it: the text of that error counts as an empty response, and the probe's own error takes only
      the text along. */
  lemma RestrictedNeverSurfaces(s: State, w: World)
    ensures var r := Probed(s, w).1; r.Failure? ==> AccessRestricted !in r.error.wraps
  {
    var s0 := s.(known := false);
    var (s1, pageError) := AfterPage(s0, w.page);
    AttemptsAreOrdinary(s1, w, Limit(pageError), 0, OTHER);
    hide AttemptsFrom, HasTrace, HasIdentity, MergedPage, MergedEnter, Fallback;
  }
}