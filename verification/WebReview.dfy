/** Model of the one-use review handshake of cmd/cozysoc/web_adguard_collection.go
    and cmd/cozysoc/web_gateway_check.go: any number of concurrent review and
    decision requests, interleaved at the sections that hold the lock, with an
    arbitrary clock. The AdGuard handlers also keep a flag while a collection runs;
    the gateway runner asks once more, with its own review, before sending. */
module WebReview {
  import opened Ordering

  datatype Kind = AdGuard | Gateway

  const SECOND: int := 1_000_000_000
  const ADGUARD_LIFETIME: int := 300 * SECOND
  const GATEWAY_LIFETIME: int := 30 * SECOND

  /** What differs between the two: the kind, when a gateway plan expires, and
      whether the runner's question is the one a plan stands for. */
  datatype Rules<!P, !Q> = Rules(kind: Kind, expiry: P -> int, matches: (Q, P) -> bool)

  datatype Review<P> = Review(id: nat, expires: int, params: P)

  /** Where one request is: loading what it will show, ready to publish a review,
      holding an approved review before, during and after its call, past the call
      with the flag still to be cleared, or answered. */
  datatype Phase<P> = Loading | Ready(review: Review<P>) | Approved(review: Review<P>) | InCall(review: Review<P>)
                    | Asked(review: Review<P>) | Leaving(review: Review<P>) | Replied(reply: Reply)

  datatype Reply = Conflict | Unavailable | Shown | Expired | Declined | Done

  datatype Decision<P> = Decision(review: Review<P>, now: int)
  datatype Answer<P, Q> = Answer(review: Review<P>, question: Q, now: int)

  /** The two locked fields, the requests, and what has happened so far: reviews
      shown, approvals, calls made, and questions the runner had approved. */
  datatype State<P, Q> = State(pending: Option<Review<P>>, collecting: bool, nextId: nat, requests: map<nat, Phase<P>>,
                               shown: seq<Review<P>>, approvals: seq<Decision<P>>, calls: seq<Review<P>>,
                                   answers: seq<Answer<P, Q>>)

  datatype Action<P, Q> = ReviewBegin(request: nat, now: int)
                        | ReviewLoad(request: nat, params: Option<P>, now: int)
                        | ReviewPublish(request: nat, now: int)
                        | Decide(request: nat, id: nat, approve: bool, now: int)
                        | CallBegin(request: nat, available: bool)
                        | Ask(request: nat, question: Q, now: int)
                        | CallEnd(request: nat)
                        | Leave(request: nat)

  function Initial<P, Q>(): State<P, Q> { State(None, false, 0, map[], [], [], [], []) }

  // ----- The sections that hold the lock

  predicate Busy<P>(pending: Option<Review<P>>, collecting: bool, now: int) {
    collecting || (pending.Some? && now < pending.value.expires)
  }

  predicate Accepts<P>(pending: Option<Review<P>>, id: nat, now: int) {
    pending.Some? && pending.value.id == id && now < pending.value.expires
  }

  function At<P, Q>(s: State<P, Q>, r: nat, p: Phase<P>): State<P, Q> { s.(requests := s.requests[r := p]) }

  function Begin<P, Q>(s: State<P, Q>, r: nat, now: int): State<P, Q> {
    At(s, r, if Busy(s.pending, s.collecting, now) then Replied(Conflict) else Loading)
  }

  /** What a review will show. A gateway plan that has expired is refused. */
  function Load<P, Q>(rules: Rules<P, Q>, s: State<P, Q>, r: nat, params: Option<P>, now: int): State<P, Q> {
    if params.None? || (rules.kind == Gateway && now >= rules.expiry(params.value)) then At(s, r, Replied(Unavailable))
    else
      var expires := if rules.kind == AdGuard then now + ADGUARD_LIFETIME else rules.expiry(params.value);
      At(s.(nextId := s.nextId + 1), r, Ready(Review(s.nextId, expires, params.value)))
  }

  function Publish<P, Q>(s: State<P, Q>, r: nat, review: Review<P>, now: int): State<P, Q> {
    if Busy(s.pending, s.collecting, now) then At(s, r, Replied(Conflict))
    else At(s.(pending := Some(review), shown := s.shown + [review]), r, Replied(Shown))
  }

  function Judge<P, Q>(rules: Rules<P, Q>, s: State<P, Q>, r: nat, id: nat, approve: bool, now: int): State<P, Q> {
    if !Accepts(s.pending, id, now) then At(s, r, Replied(Expired))
    else if !approve then At(s.(pending := None), r, Replied(Declined))
    else At(s.(pending := None, collecting := rules.kind == AdGuard,
               approvals := s.approvals + [Decision(s.pending.value, now)]), r, Approved(s.pending.value))
  }

  function Answered<P,
      Q>(rules: Rules<P, Q>, s: State<P, Q>, r: nat, review: Review<P>, question: Q, now: int): State<P, Q> {
    var asked := At(s, r, Asked(review));
    if now < review.expires && rules.matches(question, review.params)
      then asked.(answers := s.answers + [Answer(review, question, now)]) else asked
  }

  /** The step, or None where the action is not possible. */
  function Step<P, Q>(rules: Rules<P, Q>, s: State<P, Q>, a: Action<P, Q>): Option<State<P, Q>> {
    if a.ReviewBegin? then (if a.request in s.requests then None else Some(Begin(s, a.request, a.now)))
    else if a.Decide?
      then (if a.request in s.requests then None else Some(Judge(rules, s, a.request, a.id, a.approve, a.now)))
    else if a.request !in s.requests then None
    else
      var p := s.requests[a.request];
      match a
      case ReviewLoad(r, params, now) => if p.Loading? then Some(Load(rules, s, r, params, now)) else None
      case ReviewPublish(r, now) => if p.Ready? then Some(Publish(s, r, p.review, now)) else None
      case CallBegin(r, available) =>
        if !p.Approved? then None
        else if available then Some(At(s.(calls := s.calls + [p.review]), r, InCall(p.review)))
        else Some(At(s, r, Leaving(p.review)))
      case Ask(r, question, now) => if rules.kind == Gateway
          && p.InCall? then Some(Answered(rules, s, r, p.review, question, now)) else None
      case CallEnd(r) => if p.InCall? || p.Asked? then Some(At(s, r, Leaving(p.review))) else None
      case Leave(r) => if p.Leaving? then Some(At(s.(collecting := false), r, Replied(Done))) else None
      case _ => None
  }

  function After<P, Q>(rules: Rules<P, Q>, run: seq<Action<P, Q>>): Option<State<P, Q>> {
    if |run| == 0 then Some(Initial())
    else
      var before := After(rules, run[..|run| - 1]);
      if before.None? then None else Step(rules, before.value, run[|run| - 1])
  }

  // ----- The invariant

  predicate Holds<P>(p: Phase<P>) { p.Ready? || p.Approved? || p.InCall? || p.Asked? || p.Leaving? }
  predicate Authorised<P>(p: Phase<P>) { p.Approved? || p.InCall? || p.Asked? || p.Leaving? }

  ghost predicate Called<P, Q>(s: State<P, Q>, id: nat) { exists i :: 0 <= i < |s.calls| && s.calls[i].id == id }
  ghost predicate AnsweredId<P, Q>(s: State<P, Q>, id: nat) {
    exists i :: 0 <= i < |s.answers| && s.answers[i].review.id == id
  }

  /** The review was shown, and approved before it expired. */
  ghost predicate Granted<P, Q>(s: State<P, Q>, review: Review<P>) {
    review in s.shown && exists i :: 0 <= i < |s.approvals| && s.approvals[i].review == review
                                     && s.approvals[i].now < review.expires
  }

  ghost predicate RequestOk<P, Q>(s: State<P, Q>, p: Phase<P>) {
    && (Holds(p) ==> p.review.id < s.nextId)
    && (p.Ready? || p.Approved? ==> !Called(s, p.review.id))
    && (p.Ready? || p.Approved? || p.InCall? ==> !AnsweredId(s, p.review.id))
    && (Authorised(p) ==> Granted(s, p.review))
  }

  predicate SameReview<P>(a: Phase<P>, b: Phase<P>) { Holds(a) && Holds(b) && a.review.id == b.review.id }

  ghost predicate RequestsOk<P, Q>(s: State<P, Q>) {
    && (forall r :: r in s.requests ==> RequestOk(s, s.requests[r]))
    && (forall q, r :: q in s.requests && r in s.requests && SameReview(s.requests[q], s.requests[r]) ==> q == r)
  }

  ghost predicate PendingOk<P, Q>(s: State<P, Q>) {
    s.pending.Some? ==>
      && s.pending.value.id < s.nextId && s.pending.value in s.shown
      && !Called(s, s.pending.value.id) && !AnsweredId(s, s.pending.value.id)
      && forall r :: r in s.requests && Holds(s.requests[r]) ==> s.requests[r].review.id != s.pending.value.id
  }

  ghost predicate LogsOk<P, Q>(rules: Rules<P, Q>, s: State<P, Q>) {
    && (forall i :: 0 <= i < |s.calls| ==> s.calls[i].id < s.nextId && Granted(s, s.calls[i]))
    && (forall i, j :: 0 <= i < j < |s.calls| ==> s.calls[i].id != s.calls[j].id)
    && (forall i :: 0 <= i < |s.answers| ==>
          && s.answers[i].review.id < s.nextId && s.answers[i].review in s.shown
          && s.answers[i].now < s.answers[i].review.expires
             && rules.matches(s.answers[i].question, s.answers[i].review.params))
    && (forall i, j :: 0 <= i < j < |s.answers| ==> s.answers[i].review.id != s.answers[j].review.id)
  }

  /** The flag is up exactly while one request holds an approved AdGuard review. */
  ghost predicate FlagOk<P, Q>(rules: Rules<P, Q>, s: State<P, Q>) {
    && (rules.kind == Gateway ==> !s.collecting)
    && (s.collecting ==> s.pending.None?)
    && (rules.kind == AdGuard ==> forall r :: r in s.requests && Authorised(s.requests[r]) ==> s.collecting)
    && (rules.kind == AdGuard ==>
          forall q, r :: q in s.requests && r in s.requests && q != r ==>
            !(Authorised(s.requests[q]) && Authorised(s.requests[r])))
    && (s.collecting ==> exists r :: r in s.requests && Authorised(s.requests[r]))
  }

  /** A gateway review expires when its plan does. */
  predicate Dated<P, Q>(rules: Rules<P, Q>, review: Review<P>) {
    rules.kind == Gateway ==> review.expires == rules.expiry(review.params)
  }

  ghost predicate DatesOk<P, Q>(rules: Rules<P, Q>, s: State<P, Q>) {
    && (forall i :: 0 <= i < |s.shown| ==> Dated(rules, s.shown[i]))
    && (forall r :: r in s.requests && Holds(s.requests[r]) ==> Dated(rules, s.requests[r].review))
    && (s.pending.Some? ==> Dated(rules, s.pending.value))
  }

  ghost predicate Inv<P, Q>(rules: Rules<P, Q>, s: State<P, Q>) {
    DatesOk(rules, s) && RequestsOk(s) && PendingOk(s) && LogsOk(rules, s) && FlagOk(rules, s)
  }

  /** Nothing that has happened is forgotten. */
  ghost predicate Grows<P, Q>(s: State<P, Q>, t: State<P, Q>) {
    s.nextId <= t.nextId && s.shown <= t.shown && s.approvals <= t.approvals
  }

  lemma GrantedGrows<P, Q>(s: State<P, Q>, t: State<P, Q>, review: Review<P>)
    requires Grows(s, t) && Granted(s, review)
    ensures Granted(t, review)
  {
    var i :| 0 <= i < |s.approvals| && s.approvals[i].review == review && s.approvals[i].now < review.expires;
    assert t.approvals[i] == s.approvals[i];
    var j :| 0 <= j < |s.shown| && s.shown[j] == review;
    assert t.shown[j] == review;
  }

  /** A step that logs no call and no answer keeps what is said of the logs and of
      every request it does not move. */
  lemma OthersKeep<P, Q>(rules: Rules<P, Q>, s: State<P, Q>, t: State<P, Q>, r: nat)
    requires RequestsOk(s) && LogsOk(rules, s) && Grows(s, t) && t.calls == s.calls && t.answers == s.answers
    requires r in t.requests && RequestOk(t, t.requests[r])
    requires forall q :: q in t.requests && q != r ==> q in s.requests && t.requests[q] == s.requests[q]
    requires Holds(t.requests[r]) ==> forall q :: q in s.requests && q != r && Holds(s.requests[q]) ==>
               s.requests[q].review.id != t.requests[r].review.id
    ensures RequestsOk(t) && LogsOk(rules, t)
  {
    forall q | q in t.requests ensures RequestOk(t, t.requests[q]) {
      if q != r {
        assert RequestOk(s, s.requests[q]);
        if Authorised(s.requests[q]) { GrantedGrows(s, t, s.requests[q].review); }
      }
    }
    forall i | 0 <= i < |t.calls| ensures Granted(t, t.calls[i]) { GrantedGrows(s, t, s.calls[i]); }
    forall i | 0 <= i < |t.answers| ensures t.answers[i].review in t.shown {
      var j :| 0 <= j < |s.shown| && s.shown[j] == s.answers[i].review;
      assert t.shown[j] == s.shown[j];
    }
  }

  /** A request that stops holding, or never held, a review. */
  lemma ReplyKeeps<P, Q>(rules: Rules<P, Q>, s: State<P, Q>, r: nat, p: Phase<P>)
    requires Inv(rules, s) && !Holds(p)
    requires r in s.requests ==> !Authorised(s.requests[r])
    ensures Inv(rules, At(s, r, p))
  {
    OthersKeep(rules, s, At(s, r, p), r);
    if s.collecting {
      var q :| q in s.requests && Authorised(s.requests[q]);
      assert At(s, r, p).requests[q] == s.requests[q];
    }
  }

  lemma LoadKeeps<P, Q>(rules: Rules<P, Q>, s: State<P, Q>, r: nat, params: Option<P>, now: int)
    requires Inv(rules, s) && r in s.requests && s.requests[r].Loading?
    ensures Inv(rules, Load(rules, s, r, params, now))
  {
    var t := Load(rules, s, r, params, now);
    if t == At(s, r, Replied(Unavailable)) {
      ReplyKeeps(rules, s, r, Replied(Unavailable));
    } else {
      OthersKeep(rules, s, t, r);
      if s.collecting {
        var q :| q in s.requests && Authorised(s.requests[q]);
        assert t.requests[q] == s.requests[q];
      }
    }
  }

  lemma PublishKeeps<P, Q>(rules: Rules<P, Q>, s: State<P, Q>, r: nat, now: int)
    requires Inv(rules, s) && r in s.requests && s.requests[r].Ready?
    ensures Inv(rules, Publish(s, r, s.requests[r].review, now))
  {
    var review := s.requests[r].review;
    if Busy(s.pending, s.collecting, now) {
      ReplyKeeps(rules, s, r, Replied(Conflict));
    } else {
      var t := Publish(s, r, review, now);
      assert RequestOk(s, s.requests[r]);
      OthersKeep(rules, s, t, r);
      assert t.shown[|s.shown|] == review;
    }
  }

  lemma JudgeKeeps<P, Q>(rules: Rules<P, Q>, s: State<P, Q>, r: nat, id: nat, approve: bool, now: int)
    requires Inv(rules, s) && r !in s.requests
    ensures Inv(rules, Judge(rules, s, r, id, approve, now))
  {
    var t := Judge(rules, s, r, id, approve, now);
    if !Accepts(s.pending, id, now) {
      ReplyKeeps(rules, s, r, Replied(Expired));
    } else if !approve {
      ReplyKeeps(rules, s.(pending := None), r, Replied(Declined));
    } else {
      assert t.approvals[|s.approvals|] == Decision(s.pending.value, now);
      OthersKeep(rules, s, t, r);
      if rules.kind == AdGuard { assert Authorised(t.requests[r]); }
    }
  }

  /** A request that keeps its approved review while it moves on. */
  lemma HolderKeeps<P, Q>(rules: Rules<P, Q>, s: State<P, Q>, r: nat, p: Phase<P>)
    requires Inv(rules, s) && r in s.requests && Authorised(s.requests[r]) && Authorised(p)
             && p.review == s.requests[r].review
    requires RequestOk(s, p)
    ensures Inv(rules, At(s, r, p))
  {
    OthersKeep(rules, s, At(s, r, p), r);
    assert Authorised(At(s, r, p).requests[r]);
  }

  /** Logging a call for the review this request holds. */
  lemma CallKeeps<P, Q>(rules: Rules<P, Q>, s: State<P, Q>, r: nat)
    requires Inv(rules, s) && r in s.requests && s.requests[r].Approved?
    ensures var review := s.requests[r].review; Inv(rules, At(s.(calls := s.calls + [review]), r, InCall(review)))
  {
    var review := s.requests[r].review;
    assert RequestOk(s, s.requests[r]);
    var u := At(s, r, InCall(review));
    HolderKeeps(rules, s, r, InCall(review));
    var t := u.(calls := u.calls + [review]);
    assert forall id :: Called(t, id) ==> Called(u, id) || id == review.id;
    forall i | 0 <= i < |t.calls| ensures t.calls[i].id < t.nextId && Granted(t, t.calls[i]) {
      GrantedGrows(u, t, t.calls[i]);
    }
    forall i, j | 0 <= i < j < |t.calls| ensures t.calls[i].id != t.calls[j].id {
      if j == |u.calls| { assert Called(s, s.calls[i].id); }
    }
    forall q | q in t.requests ensures RequestOk(t, t.requests[q]) {
      assert RequestOk(u, u.requests[q]);
      if Authorised(u.requests[q]) { GrantedGrows(u, t, u.requests[q].review); }
    }
    assert At(s.(calls := s.calls + [review]), r, InCall(review)) == t;
  }

  lemma AskKeeps<P, Q>(rules: Rules<P, Q>, s: State<P, Q>, r: nat, question: Q, now: int)
    requires Inv(rules, s) && r in s.requests && s.requests[r].InCall?
    ensures Inv(rules, Answered(rules, s, r, s.requests[r].review, question, now))
  {
    var review := s.requests[r].review;
    assert RequestOk(s, s.requests[r]);
    var u := At(s, r, Asked(review));
    HolderKeeps(rules, s, r, Asked(review));
    var t := Answered(rules, s, r, review, question, now);
    if t.answers != s.answers {
      assert forall id :: AnsweredId(t, id) ==> AnsweredId(u, id) || id == review.id;
      forall i, j | 0 <= i < j < |t.answers| ensures t.answers[i].review.id != t.answers[j].review.id {
        if j == |u.answers| { assert AnsweredId(s, s.answers[i].review.id); }
      }
      forall q | q in t.requests ensures RequestOk(t, t.requests[q]) {
        assert RequestOk(u, u.requests[q]);
        if Authorised(u.requests[q]) { GrantedGrows(u, t, u.requests[q].review); }
      }
      forall i | 0 <= i < |t.calls| ensures Granted(t, t.calls[i]) { GrantedGrows(u, t, t.calls[i]); }
    }
  }

  lemma LeaveKeeps<P, Q>(rules: Rules<P, Q>, s: State<P, Q>, r: nat)
    requires Inv(rules, s) && r in s.requests && s.requests[r].Leaving?
    ensures Inv(rules, At(s.(collecting := false), r, Replied(Done)))
  {
    var t := At(s.(collecting := false), r, Replied(Done));
    OthersKeep(rules, s, t, r);
  }

  lemma StepKeeps<P, Q>(rules: Rules<P, Q>, s: State<P, Q>, a: Action<P, Q>)
    requires Inv(rules, s) && Step(rules, s, a).Some?
    ensures Inv(rules, Step(rules, s, a).value)
  {
    match a
    case ReviewBegin(r, now) => ReplyKeeps(rules, s, r, if Busy(s.pending, s.collecting, now) then Replied(Conflict)
                                           else Loading);
    case Decide(r, id, approve, now) => JudgeKeeps(rules, s, r, id, approve, now);
    case ReviewLoad(r, params, now) => LoadKeeps(rules, s, r, params, now);
    case ReviewPublish(r, now) => PublishKeeps(rules, s, r, now);
    case CallBegin(r, available) =>
      assert RequestOk(s, s.requests[r]);
      if available { CallKeeps(rules, s, r); } else { HolderKeeps(rules, s, r, Leaving(s.requests[r].review)); }
    case Ask(r, question, now) => AskKeeps(rules, s, r, question, now);
    case CallEnd(r) =>
      assert RequestOk(s, s.requests[r]);
      HolderKeeps(rules, s, r, Leaving(s.requests[r].review));
    case Leave(r) => LeaveKeeps(rules, s, r);
  }

  lemma {:induction false} ReachableInv<P, Q>(rules: Rules<P, Q>, run: seq<Action<P, Q>>)
    requires After(rules, run).Some?
    ensures Inv(rules, After(rules, run).value)
  {
    if |run| != 0 {
      ReachableInv(rules, run[..|run| - 1]);
      StepKeeps(rules, After(rules, run[..|run| - 1]).value, run[|run| - 1]);
    }
  }

  // ----- What holds under every interleaving

  /** No review authorises two calls, and every call carries the very parameters of
      a review that was shown and then approved before it expired. */
  lemma OneCallPerReview<P, Q>(rules: Rules<P, Q>, run: seq<Action<P, Q>>)
    requires After(rules, run).Some?
    ensures var s := After(rules, run).value;
            && (forall i, j :: 0 <= i < j < |s.calls| ==> s.calls[i].id != s.calls[j].id)
            && (forall i :: 0 <= i < |s.calls| ==> Granted(s, s.calls[i]))
  {
    ReachableInv(rules, run);
  }

  /** While a collection runs no review is pending, and at most one runs. */
  lemma OneCollectionAtATime<P, Q>(rules: Rules<P, Q>, run: seq<Action<P, Q>>)
    requires rules.kind == AdGuard
    requires After(rules, run).Some?
    ensures var s := After(rules, run).value;
            && (s.collecting ==> s.pending.None?)
            && (s.collecting <==> exists r :: r in s.requests && Authorised(s.requests[r]))
            && (forall q, r :: q in s.requests && r in s.requests && s.requests[q].InCall? && s.requests[r].InCall? ==>
                  q == r)
  {
    ReachableInv(rules, run);
  }

  // ----- What the handshake is for

  /** The state after actions taken one after the other from s. */
  function Drive<P, Q>(rules: Rules<P, Q>, s: State<P, Q>, run: seq<Action<P, Q>>): Option<State<P, Q>>
    decreases |run|
  {
    if |run| == 0 then Some(s)
    else
      var t := Step(rules, s, run[0]);
      if t.None? then None else Drive(rules, t.value, run[1..])
  }

  lemma DriveTwo<P, Q>(rules: Rules<P, Q>, s: State<P, Q>, a: Action<P, Q>, rest: seq<Action<P, Q>>)
    requires Step(rules, s, a).Some?
    ensures Drive(rules, s, [a] + rest) == Drive(rules, Step(rules, s, a).value, rest)
  {
    assert ([a] + rest)[0] == a && ([a] + rest)[1..] == rest;
  }

  /** Until when a review shown now may be decided. */
  function ExpiryOf<P, Q>(rules: Rules<P, Q>, params: P, now: int): int {
    if rules.kind == AdGuard then now + 300 * SECOND else rules.expiry(params)
  }

  /** With nothing pending and nothing running, a review request is shown: its review is
      the pending one, with the parameters it loaded and its own expiry. */
  lemma ReviewIsShown<P, Q>(rules: Rules<P, Q>, s: State<P, Q>, r: nat, params: P, now: int)
    requires r !in s.requests && !Busy(s.pending, s.collecting, now) && now < ExpiryOf(rules, params, now)
    ensures var run: seq<Action<P, Q>> := [ReviewBegin(r, now), ReviewLoad(r, Some(params), now),
                                           ReviewPublish(r, now)];
            var t := Drive(rules, s, run);
            var review := Review(s.nextId, ExpiryOf(rules, params, now), params);
            && t.Some? && t.value.pending == Some(review) && t.value.shown == s.shown + [review]
            && t.value.requests == s.requests[r := Replied(Shown)] && t.value.collecting == s.collecting
            && t.value.calls == s.calls
  {
    var a: Action<P, Q>, b: Action<P, Q>, c: Action<P, Q> :=
      ReviewBegin(r, now), ReviewLoad(r, Some(params), now), ReviewPublish(r, now);
    var t1 := Step(rules, s, a).value;
    var t2 := Step(rules, t1, b).value;
    assert [a, b, c] == [a] + ([b] + ([c] + []));
    DriveTwo(rules, s, a, [b] + ([c] + []));
    DriveTwo(rules, t1, b, [c] + []);
    DriveTwo(rules, t2, c, []);
    assert t2.requests[r].Ready?;
  }

  /** A pending review that is approved in time is called exactly once, with what was
      shown, and then everything is free again; one that is declined is only consumed. */
  lemma DecisionIsCarriedOut<P, Q>(rules: Rules<P, Q>, s: State<P, Q>, r: nat, now: int)
    requires r !in s.requests && s.pending.Some? && now < s.pending.value.expires
             && (rules.kind == Gateway ==> !s.collecting)
    ensures var id := s.pending.value.id;
            var yes: seq<Action<P, Q>> := [Decide(r, id, true, now), CallBegin(r, true), CallEnd(r), Leave(r)];
            var t := Drive(rules, s, yes);
            && t.Some? && t.value.calls == s.calls + [s.pending.value] && t.value.pending.None? && !t.value.collecting
            && t.value.approvals == s.approvals + [Decision(s.pending.value, now)]
            && t.value.requests == s.requests[r := Replied(Done)]
    ensures Step(rules, s, Decide(r, s.pending.value.id, false, now)) ==
            Some(s.(pending := None, requests := s.requests[r := Replied(Declined)]))
    ensures forall id, approve, later :: id != s.pending.value.id || later >= s.pending.value.expires ==>
              Step(rules, s, Decide(r, id, approve, later)) ==
              Some(s.(requests := s.requests[r := Replied(Expired)]))
  {
    var a: Action<P, Q>, b: Action<P, Q>, c: Action<P, Q>, d: Action<P, Q> :=
      Decide(r, s.pending.value.id, true, now), CallBegin(r, true), CallEnd(r), Leave(r);
    var t1 := Step(rules, s, a).value;
    var t2 := Step(rules, t1, b).value;
    var t3 := Step(rules, t2, c).value;
    assert [a, b, c, d] == [a] + ([b] + ([c] + ([d] + [])));
    DriveTwo(rules, s, a, [b] + ([c] + ([d] + [])));
    DriveTwo(rules, t1, b, [c] + ([d] + []));
    DriveTwo(rules, t2, c, [d] + []);
    DriveTwo(rules, t3, d, []);
  }

  /** The runner's question is approved exactly when it matches what was shown and the
      review has not expired, and it can be asked once. */
  lemma QuestionIsDecided<P, Q>(rules: Rules<P, Q>, s: State<P, Q>, r: nat, question: Q, now: int)
    requires rules.kind == Gateway && r in s.requests && s.requests[r].InCall?
    ensures var review, t := s.requests[r].review, Step(rules, s, Ask(r, question, now));
            && t.Some? && t.value.requests == s.requests[r := Asked(review)]
            && Step(rules, t.value, Ask(r, question, now)).None?
            && t.value.answers == s.answers + (if rules.matches(question, review.params) && now < review.expires
                                               then [Answer(review, question, now)] else [])
  {
  }

  // ----- The gateway's second test

  datatype Binding = Binding(scope: string, interfaceName: string, interfaceIndex: int, prefixes: seq<string>)
  datatype Budget = Budget(maxAttempts: int, minIntervalMs: int, attemptTimeoutMs: int, totalTimeoutMs: int,
                           payloadBytes: int,
                           maxRequestBytes: int, maxConcurrentRuns: int, minRunIntervalMs: int)
  datatype Plan = Plan(binding: Binding, target: string, source: string, budget: Budget, created: int, expires: int)
  datatype Question = Question(schemaVersion: int, mode: string, roleVerified: bool, profile: string, created: int,
                               expires: int,
                               binding: Binding, target: string, source: string, budget: Budget)

  predicate MatchesPlan(q: Question, p: Plan) {
    && q.schemaVersion == 1 && q.mode == "experimental-one-shot" && !q.roleVerified && q.profile == "gateway-icmp-v1"
    && q.target == p.target && q.source == p.source && q.binding == p.binding && q.budget == p.budget
    && q.created >= p.created && q.created < p.expires && q.expires == q.created + GATEWAY_LIFETIME
  }

  const GATEWAY_RULES: Rules<Plan, Question> := Rules(Gateway, (p: Plan) => p.expires, MatchesPlan)

  /** Each reviewed plan has at most one check approved, for exactly what was shown:
      same target, source, binding and budget, while the plan was still valid. */
  lemma GatewayApprovesOnlyWhatWasShown(run: seq<Action<Plan, Question>>)
    requires After(GATEWAY_RULES, run).Some?
    ensures var s := After(GATEWAY_RULES, run).value;
            && (forall i, j :: 0 <= i < j < |s.answers| ==> s.answers[i].review.id != s.answers[j].review.id)
            && (forall i :: 0 <= i < |s.answers| ==>
                  var a := s.answers[i];
                  && a.review in s.shown && a.now < a.review.params.expires
                  && a.question.target == a.review.params.target && a.question.source == a.review.params.source
                  && a.question.binding == a.review.params.binding && a.question.budget == a.review.params.budget
                  && a.review.params.created <= a.question.created < a.review.params.expires
                  && a.question.expires == a.question.created + 30 * SECOND && !a.question.roleVerified
                  && a.question.schemaVersion == 1 && a.question.profile == "gateway-icmp-v1"
                  && a.question.mode == "experimental-one-shot")
  {
    ReachableInv(GATEWAY_RULES, run);
  }

  // ----- The handlers' locked fields

  /** The pending review and the flag. The ghost machine state says where every request
      is; each locked section is one step of it. */
  class Reviews<P, Q> {
    const kind: Kind
    var pending: Option<Review<P>>
    var collecting: bool
    ghost const rules: Rules<P, Q>
    ghost var world: State<P, Q>

    ghost predicate Valid()
      reads this
    { world.pending == pending && world.collecting == collecting && rules.kind == kind && Inv(rules, world) }

    constructor (k: Kind, ghost r: Rules<P, Q>)
      requires r.kind == k
      ensures Valid() && kind == k && rules == r && world == Initial()
    {
      kind, rules := k, r;
      pending, collecting, world := None, false, Initial();
    }

    /** The second locked section of a review request: its review becomes the pending
        one, unless a collection runs or an unexpired review is pending. */
    method PublishUnlessBusy(r: nat, review: Review<P>, now: int) returns (ok: bool)
      requires Valid() && r in world.requests && world.requests[r] == Ready(review)
      modifies this
      ensures Valid() && Some(world) == Step(rules, old(world), ReviewPublish(r, now))
      ensures ok <==> !old(collecting) && (old(pending).Some? ==> now >= old(pending).value.expires)
      ensures ok ==> review in world.shown && !collecting && pending == Some(review)
      ensures !ok ==> pending == old(pending) && (collecting || (pending.Some? && now < pending.value.expires))
    {
      StepKeeps(rules, world, ReviewPublish(r, now));
      world := Step(rules, world, ReviewPublish(r, now)).value;
      if collecting || (pending.Some? && now < pending.value.expires) { return false; }
      pending := Some(review);
      return true;
    }

    /** The locked section of a decision: a matching unexpired review is consumed
        whatever the decision, so no later decision can name it; an approval leaves
        this request its only holder. */
    method Consume(r: nat, id: nat, approve: bool, now: int) returns (review: Option<Review<P>>)
      requires Valid() && r !in world.requests
      modifies this
      ensures Valid() && Some(world) == Step(rules, old(world), Decide(r, id, approve, now))
      ensures review == (if old(pending).Some? && old(pending).value.id == id && now < old(pending).value.expires
                         then old(pending) else None)
      ensures pending == (if review.Some? then None else old(pending))
      ensures review.Some? ==> review.value in world.shown
      ensures review.Some? && approve ==>
                && world.requests[r] == Approved(review.value) && !Called(world, review.value.id)
                && forall q :: q in world.requests && SameReview(world.requests[q], world.requests[r]) ==> q == r
    {
      StepKeeps(rules, world, Decide(r, id, approve, now));
      world := Step(rules, world, Decide(r, id, approve, now)).value;
      if pending.None? || pending.value.id != id || now >= pending.value.expires { return None; }
      review := pending;
      pending := None;
      if approve && kind == AdGuard { collecting := true; }
      if approve { assert RequestOk(world, world.requests[r]); }
    }

    /** The deferred section of an approved collection: this request was the only one
        holding an approval, so none does now and a new review may be shown. */
    method Release(r: nat)
      requires Valid() && kind == AdGuard && r in world.requests && world.requests[r].Leaving?
      modifies this
      ensures Valid() && Some(world) == Step(rules, old(world), Leave(r))
      ensures forall q :: q in world.requests ==> !Authorised(world.requests[q])
      ensures pending.None? && !collecting
    {
      StepKeeps(rules, world, Leave(r));
      assert Authorised(world.requests[r]);
      world := Step(rules, world, Leave(r)).value;
      collecting := false;
    }
  }
}
