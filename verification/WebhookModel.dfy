/**
 * Webhook delivery: a row per delivery, a retrying queue job that drives it and
 * the separate handler of the job's final failure. `posts` records, for every
 * delivery, what each POST got back; the invariant reads the row off that record.
 */
module WebhookModel {
  import opened Basics

  type OrgId = nat
  type Id = nat

  const ATTEMPTS: nat := 3

  datatype Status = PENDING | SUCCESS | FAILED | DEAD

  datatype Fault = HttpError(status: nat) | TransportFault | SourceGone

  datatype Delivery = Delivery(
    webhook: Id, event: Id, org: OrgId, status: Status, attempts: nat,
    responseStatus: Option<nat>, lastError: Option<Fault>)

  datatype Webhook = Webhook(org: OrgId, events: seq<string>, isActive: bool)

  datatype Event = Event(org: OrgId, kind: string)

  /** What one POST met: a response, or a network error or timeout. */
  datatype Reply = Responded(status: nat) | TransportError

  /** Exhausted and Marked are the two awaits of the final `failed` handler. */
  datatype Phase = Waiting | Completed | Exhausted | Marked | Closed

  datatype Job = Job(attemptsMade: nat, phase: Phase)

  datatype FailureNotice = FailureNotice(delivery: Id, webhook: Id, org: OrgId)

  datatype State = State(
    webhooks: map<Id, Webhook>, events: map<Id, Event>, deliveries: map<Id, Delivery>, jobs: map<Id, Job>,
    notices: seq<FailureNotice>, posts: map<Id, seq<Reply>>, nextId: Id)

  datatype Action =
    | Register(webhook: Webhook)
    | Unregister(id: Id)
    | Record(event: Event)
    | Forget(id: Id)
    | Enqueue(webhookId: Id, eventId: Id)
    | Process(id: Id, reply: Reply)
    | MarkDead(id: Id)
    | Notify(id: Id)
    | DeleteDelivery(id: Id)

  const INIT := State(map[], map[], map[], map[], [], map[], 0)

  predicate Ok2xx(status: nat) {
    200 <= status < 300
  }

  predicate Accepted(r: Reply) {
    r.Responded? && Ok2xx(r.status)
  }

  // ----- The steps -----------------------------------------------------------

  function NewDelivery(webhookId: Id, eventId: Id, org: OrgId): Delivery {
    Delivery(webhookId, eventId, org, PENDING, 0, None, None)
  }

  function DoEnqueue(s: State, webhookId: Id, eventId: Id): State
    requires eventId in s.events
  {
    s.(deliveries := s.deliveries[s.nextId := NewDelivery(webhookId, eventId, s.events[eventId].org)],
       jobs := s.jobs[s.nextId := Job(0, Waiting)],
       posts := s.posts[s.nextId := []],
       nextId := s.nextId + 1)
  }

  function Save(s: State, id: Id, d: Delivery): State {
    s.(deliveries := s.deliveries[id := d])
  }

  function Complete(s: State, id: Id): State
    requires id in s.jobs
  {
    s.(jobs := s.jobs[id := s.jobs[id].(phase := Completed)])
  }

  /** The worker threw: retry, or give up after the last attempt. */
  function Fail(s: State, id: Id): State
    requires id in s.jobs
  {
    var made := s.jobs[id].attemptsMade + 1;
    s.(jobs := s.jobs[id := Job(made, if made < ATTEMPTS then Waiting else Exhausted)])
  }

  function DoPost(s: State, id: Id, d: Delivery, reply: Reply): State
    requires id in s.jobs && id in s.posts
  {
    var sent := s.(posts := s.posts[id := s.posts[id] + [reply]]);
    var d1 := d.(attempts := d.attempts + 1);
    match reply
    case Responded(status) =>
      var d2 := d1.(responseStatus := Some(status));
      if Ok2xx(status) then Complete(Save(sent, id, d2.(status := SUCCESS, lastError := None)), id)
      else Fail(Save(sent, id, d2.(status := FAILED, lastError := Some(HttpError(status)))), id)
    case TransportError =>
      if d1.responseStatus.None? then
        Fail(Save(sent, id, d1.(status := FAILED, lastError := Some(TransportFault))), id)
      else Fail(sent, id)
  }

  function DoProcess(s: State, id: Id, reply: Reply): State
    requires id in s.jobs && id in s.posts
  {
    if id !in s.deliveries || s.deliveries[id].status == SUCCESS then Complete(s, id)
    else
      var d := s.deliveries[id];
      if d.webhook !in s.webhooks || d.event !in s.events then
        Complete(Save(s, id, d.(status := DEAD, lastError := Some(SourceGone))), id)
      else DoPost(s, id, d, reply)
  }

  predicate InPhase(s: State, id: Id, phase: Phase) {
    id in s.jobs && id in s.posts && s.jobs[id].phase == phase
  }

  function DoMarkDead(s: State, id: Id): State
    requires id in s.jobs
  {
    var s1 := if id in s.deliveries then Save(s, id, s.deliveries[id].(status := DEAD)) else s;
    s1.(jobs := s1.jobs[id := s1.jobs[id].(phase := Marked)])
  }

  function DoNotify(s: State, id: Id): State
    requires id in s.jobs
  {
    var d := Get(s.deliveries, id);
    s.(jobs := s.jobs[id := s.jobs[id].(phase := Closed)],
       notices := s.notices + (if d.Some? then [FailureNotice(id, d.value.webhook, d.value.org)] else []))
  }

  function Apply(s: State, a: Action): State {
    match a
    case Register(w) => s.(webhooks := s.webhooks[s.nextId := w], nextId := s.nextId + 1)
    case Unregister(id) => s.(webhooks := s.webhooks - {id})
    case Record(e) => s.(events := s.events[s.nextId := e], nextId := s.nextId + 1)
    case Forget(id) => s.(events := s.events - {id})
    case Enqueue(w, e) => if e in s.events then DoEnqueue(s, w, e) else s
    case Process(id, reply) => if InPhase(s, id, Waiting) then DoProcess(s, id, reply) else s
    case MarkDead(id) => if InPhase(s, id, Exhausted) then DoMarkDead(s, id) else s
    case Notify(id) => if InPhase(s, id, Marked) then DoNotify(s, id) else s
    case DeleteDelivery(id) => s.(deliveries := s.deliveries - {id})
  }

  function Exec(s: State, actions: seq<Action>): State
    decreases |actions|
  {
    if actions == [] then s else Exec(Apply(s, actions[0]), actions[1..])
  }

  lemma ExecCons(s: State, a: Action, rest: seq<Action>)
    ensures Exec(s, [a] + rest) == Exec(Apply(s, a), rest)
  {
    assert ([a] + rest)[1..] == rest;
  }

  lemma {:induction false} ExecAppend(s: State, xs: seq<Action>, ys: seq<Action>)
    ensures Exec(s, xs + ys) == Exec(Exec(s, xs), ys)
    decreases |xs|
  {
    if xs == [] {
      assert xs + ys == ys;
    } else {
      assert (xs + ys)[1..] == xs[1..] + ys;
      ExecAppend(Apply(s, xs[0]), xs[1..], ys);
    }
  }

  // ----- What a record of replies says ---------------------------------------

  /** Transport errors after an earlier response: the sticky status suppresses their save. */
  ghost function Unsaved(posts: seq<Reply>): nat {
    if posts == [] then 0
    else
      var more := if Last(posts).TransportError? && LastResponse(ButLast(posts)).Some? then 1 else 0;
      Unsaved(ButLast(posts)) + more
  }

  ghost function LastResponse(posts: seq<Reply>): Option<nat> {
    if posts == [] then None
    else if Last(posts).Responded? then Some(Last(posts).status) else LastResponse(ButLast(posts))
  }

  /** The error the row shows: the last failure that was saved. */
  ghost function LastFault(posts: seq<Reply>): Option<Fault> {
    if posts == [] || Accepted(Last(posts)) then None
    else match Last(posts)
      case Responded(status) => Some(HttpError(status))
      case TransportError =>
        if LastResponse(ButLast(posts)).Some? then LastFault(ButLast(posts)) else Some(TransportFault)
  }

  ghost predicate NoneAccepted(posts: seq<Reply>) {
    forall i :: 0 <= i < |posts| ==> !Accepted(posts[i])
  }

  // ----- The invariant -------------------------------------------------------

  /** At most three POSTs, and none after an accepted one. */
  ghost predicate PostsInv(posts: seq<Reply>, job: Job) {
    && |posts| <= ATTEMPTS
    && (posts != [] ==> NoneAccepted(ButLast(posts)))
    && (job.phase != Completed ==> NoneAccepted(posts) && job.attemptsMade == |posts|)
    && (job.phase == Waiting ==> |posts| < ATTEMPTS)
    && (job.phase in {Exhausted, Marked, Closed} ==> |posts| == ATTEMPTS)
  }

  ghost predicate RowInv(d: Delivery, posts: seq<Reply>, job: Job) {
    && d.attempts == |posts| - Unsaved(posts)
    && d.responseStatus == LastResponse(posts)
    && d.status == (match job.phase
         case Waiting => if posts == [] then PENDING else FAILED
         case Completed => if NoneAccepted(posts) then DEAD else SUCCESS
         case Exhausted => FAILED
         case Marked => DEAD
         case Closed => DEAD)
    && d.lastError == (if job.phase == Completed && NoneAccepted(posts) then Some(SourceGone) else LastFault(posts))
  }

  ghost predicate Noticed(s: State, id: Id) {
    exists j :: 0 <= j < |s.notices| && s.notices[j].delivery == id
  }

  ghost predicate DeliveryInv(s: State, id: Id) {
    && (id in s.jobs <==> id in s.posts)
    && (id in s.deliveries ==> id in s.jobs)
    && (id in s.jobs ==> id < s.nextId && PostsInv(s.posts[id], s.jobs[id]))
    && (id in s.deliveries ==> RowInv(s.deliveries[id], s.posts[id], s.jobs[id]))
    && (Noticed(s, id) ==> id in s.jobs && s.jobs[id].phase == Closed)
    && (id in s.deliveries && s.jobs[id].phase == Closed ==> Noticed(s, id))
  }

  ghost predicate NoticesDiffer(s: State) {
    forall j, k :: 0 <= j < k < |s.notices| ==> s.notices[j].delivery != s.notices[k].delivery
  }

  ghost predicate Inv(s: State) {
    NoticesDiffer(s) && forall id :: DeliveryInv(s, id)
  }

  lemma PostKeepsRow(s: State, id: Id, reply: Reply)
    requires DeliveryInv(s, id) && InPhase(s, id, Waiting) && id in s.deliveries && s.deliveries[id].status != SUCCESS
    ensures DeliveryInv(DoPost(s, id, s.deliveries[id], reply), id)
  {
    var s' := DoPost(s, id, s.deliveries[id], reply);
    var posts := s.posts[id];
    AppendLast(posts, reply);
    assert s'.posts[id] == posts + [reply];
    assert s'.notices == s.notices;
    assert forall i :: 0 <= i < |posts| ==> (posts + [reply])[i] == posts[i];
    assert (posts + [reply])[|posts|] == reply;
  }

  lemma ProcessKeepsDelivery(s: State, x: Id, reply: Reply, id: Id)
    requires DeliveryInv(s, id) && InPhase(s, x, Waiting)
    ensures DeliveryInv(DoProcess(s, x, reply), id)
  {
    var s' := DoProcess(s, x, reply);
    assert s'.notices == s.notices && s'.nextId == s.nextId;
    assert Noticed(s', id) <==> Noticed(s, id);
    if x == id {
      if id in s.deliveries && s.deliveries[id].status != SUCCESS
         && s.deliveries[id].webhook in s.webhooks && s.deliveries[id].event in s.events {
        PostKeepsRow(s, id, reply);
      }
    } else {
      ProcessFrame(s, x, reply, id);
    }
  }

  lemma ProcessFrame(s: State, x: Id, reply: Reply, id: Id)
    requires InPhase(s, x, Waiting) && x != id
    ensures var s' := DoProcess(s, x, reply);
      && Get(s'.deliveries, id) == Get(s.deliveries, id) && Get(s'.jobs, id) == Get(s.jobs, id)
      && Get(s'.posts, id) == Get(s.posts, id)
  {
  }

  /** A delivery's invariant survives any step. */
  lemma StepKeepsDelivery(s: State, a: Action, id: Id)
    requires DeliveryInv(s, id) && DeliveryInv(s, s.nextId)
    ensures DeliveryInv(Apply(s, a), id)
  {
    if a.Process? && InPhase(s, a.id, Waiting) {
      ProcessKeepsDelivery(s, a.id, a.reply, id);
    } else if a.Notify? && InPhase(s, a.id, Marked) {
      NotifyKeepsDelivery(s, a.id, id);
    } else if !a.Process? && !a.Notify? {
      assert Apply(s, a).notices == s.notices;
      assert Noticed(Apply(s, a), id) <==> Noticed(s, id);
    }
  }

  lemma NotifyKeepsDelivery(s: State, x: Id, id: Id)
    requires DeliveryInv(s, id) && InPhase(s, x, Marked)
    ensures DeliveryInv(DoNotify(s, x), id)
  {
    var s' := DoNotify(s, x);
    assert s.notices <= s'.notices;
    if Noticed(s, id) {
      var j :| 0 <= j < |s.notices| && s.notices[j].delivery == id;
      assert s'.notices[j].delivery == id;
    }
    if Noticed(s', id) && id != x {
      var j :| 0 <= j < |s'.notices| && s'.notices[j].delivery == id;
      assert s.notices[j].delivery == id;
    }
    if x == id && id in s.deliveries {
      assert Last(s'.notices).delivery == id;
    }
  }

  lemma StepKeepsInv(s: State, a: Action)
    requires Inv(s)
    ensures Inv(Apply(s, a))
  {
    var s' := Apply(s, a);
    assert DeliveryInv(s, s.nextId);
    forall id ensures DeliveryInv(s', id) {
      assert DeliveryInv(s, id);
      StepKeepsDelivery(s, a, id);
    }
    if a.Notify? {
      assert DeliveryInv(s, a.id);
      forall j | 0 <= j < |s.notices| ensures InPhase(s, a.id, Marked) ==> s.notices[j].delivery != a.id {
        if s.notices[j].delivery == a.id { assert Noticed(s, a.id); }
      }
    }
  }

  lemma {:induction false} InvHolds(s: State, actions: seq<Action>)
    requires Inv(s)
    ensures Inv(Exec(s, actions))
    decreases |actions|
  {
    if actions != [] {
      StepKeepsInv(s, actions[0]);
      InvHolds(Apply(s, actions[0]), actions[1..]);
    }
  }

  // ----- What every run guarantees -------------------------------------------

  /** At most three POSTs for a delivery, and none once one got a 2xx response. */
  lemma PostsBounded(actions: seq<Action>, id: Id)
    requires id in Exec(INIT, actions).posts
    ensures var posts := Exec(INIT, actions).posts[id];
      && |posts| <= 3
      && forall i :: 0 <= i < |posts| - 1 && posts[i].Responded? ==> !(200 <= posts[i].status < 300)
  {
    InvHolds(INIT, actions);
    assert DeliveryInv(Exec(INIT, actions), id);
    var posts := Exec(INIT, actions).posts[id];
    assert forall i :: 0 <= i < |posts| - 1 ==> posts[i] == ButLast(posts)[i];
  }

  /**
   * The status a reader sees: with retries left PENDING before the first failure
   * and FAILED after it; once the job and its handler are done SUCCESS if the last
   * POST got a 2xx response and DEAD otherwise.
   */
  lemma StatusOfRun(actions: seq<Action>, id: Id)
    requires id in Exec(INIT, actions).deliveries
    ensures var s := Exec(INIT, actions);
      && id in s.jobs && id in s.posts
      && var ok := s.posts[id] != [] && Last(s.posts[id]).Responded? && 200 <= Last(s.posts[id]).status < 300;
      && (s.jobs[id].phase == Waiting ==>
           s.jobs[id].attemptsMade < 3 && s.deliveries[id].status == if s.posts[id] == [] then PENDING else FAILED)
      && (s.jobs[id].phase in {Completed, Closed} ==> s.deliveries[id].status == if ok then SUCCESS else DEAD)
      && (s.deliveries[id].status == SUCCESS <==> ok)
  {
    InvHolds(INIT, actions);
    var s := Exec(INIT, actions);
    assert DeliveryInv(s, id);
    var posts := s.posts[id];
    if posts != [] {
      assert posts == ButLast(posts) + [Last(posts)];
      assert NoneAccepted(posts) <==> !Accepted(Last(posts));
    }
  }

  /**
   * What one attempt leaves, whatever the row was: the response in full, a first
   * transport failure, or, after an earlier response, no trace of the attempt at all.
   */
  lemma AttemptOutcome(s: State, id: Id, reply: Reply)
    requires Inv(s) && InPhase(s, id, Waiting) && id in s.deliveries
    requires s.deliveries[id].webhook in s.webhooks && s.deliveries[id].event in s.events
    ensures var d, s' := s.deliveries[id], Apply(s, Process(id, reply));
      && id in s'.deliveries && id in s'.jobs && id in s'.posts && s'.posts[id] == s.posts[id] + [reply]
      && (reply.Responded? && 200 <= reply.status <= 299 ==>
           && s'.deliveries[id] == d.(status := SUCCESS, attempts := d.attempts + 1,
                                      responseStatus := Some(reply.status), lastError := None)
           && s'.jobs[id].phase == Completed)
      && (reply.Responded? && !(200 <= reply.status <= 299) ==>
           s'.deliveries[id] == d.(status := FAILED, attempts := d.attempts + 1,
                                   responseStatus := Some(reply.status), lastError := Some(HttpError(reply.status))))
      && (reply.TransportError? && d.responseStatus == None ==>
           s'.deliveries[id] == d.(status := FAILED, attempts := d.attempts + 1, lastError := Some(TransportFault)))
      && (reply.TransportError? && d.responseStatus != None ==> s'.deliveries[id] == d)
      && (!reply.Responded? || !(200 <= reply.status <= 299) ==>
           s'.jobs[id] == Job(|s'.posts[id]|, if |s'.posts[id]| < 3 then Waiting else Exhausted))
  {
    assert DeliveryInv(s, id);
  }

  /** An attempt whose webhook or event is gone sends nothing and ends the job with a dead row. */
  lemma SourceGoneOutcome(s: State, id: Id, reply: Reply)
    requires Inv(s) && InPhase(s, id, Waiting) && id in s.deliveries
    requires s.deliveries[id].webhook !in s.webhooks || s.deliveries[id].event !in s.events
    ensures var s' := Apply(s, Process(id, reply));
      && id in s'.deliveries && id in s'.jobs && s'.posts == s.posts && s'.jobs[id].phase == Completed
      && s'.deliveries[id] == s.deliveries[id].(status := DEAD, lastError := Some(SourceGone))
  {
    assert DeliveryInv(s, id);
  }

  /**
   * The stored attempts are the POSTs made less the transport errors that follow
   * an earlier response; so they never exceed the real count, and match it exactly
   * if there was no such error.
   */
  lemma AttemptAccounting(actions: seq<Action>, id: Id)
    requires id in Exec(INIT, actions).deliveries
    ensures var s := Exec(INIT, actions);
      && id in s.posts
      && s.deliveries[id].attempts == |s.posts[id]| - Unsaved(s.posts[id]) <= |s.posts[id]|
      && (s.deliveries[id].attempts == |s.posts[id]| <==>
           !exists i, j :: 0 <= i < j < |s.posts[id]| && s.posts[id][i].Responded? && s.posts[id][j].TransportError?)
  {
    InvHolds(INIT, actions);
    assert DeliveryInv(Exec(INIT, actions), id);
    NoneUnsavedIff(Exec(INIT, actions).posts[id]);
  }

  lemma {:induction false} NoneUnsavedIff(posts: seq<Reply>)
    ensures Unsaved(posts) == 0 <==>
      !exists i, j :: 0 <= i < j < |posts| && posts[i].Responded? && posts[j].TransportError?
  {
    if posts != [] {
      var front := ButLast(posts);
      NoneUnsavedIff(front);
      SomeResponse(front);
      if exists i, j :: 0 <= i < j < |posts| && posts[i].Responded? && posts[j].TransportError? {
        var i, j :| 0 <= i < j < |posts| && posts[i].Responded? && posts[j].TransportError?;
        if j < |front| {
          assert front[i].Responded? && front[j].TransportError?;
        } else {
          assert front[i].Responded?;
        }
      }
      if Unsaved(posts) > 0 {
        if Unsaved(front) > 0 {
          var i, j :| 0 <= i < j < |front| && front[i].Responded? && front[j].TransportError?;
          assert posts[i].Responded? && posts[j].TransportError?;
        } else {
          var i :| 0 <= i < |front| && front[i].Responded?;
          assert posts[i].Responded? && posts[|posts| - 1].TransportError?;
        }
      }
    }
  }

  lemma {:induction false} SomeResponse(posts: seq<Reply>)
    ensures LastResponse(posts).Some? <==> exists i :: 0 <= i < |posts| && posts[i].Responded?
  {
    if posts != [] {
      SomeResponse(ButLast(posts));
      if exists i :: 0 <= i < |ButLast(posts)| && ButLast(posts)[i].Responded? {
        var i :| 0 <= i < |ButLast(posts)| && ButLast(posts)[i].Responded?;
        assert posts[i].Responded?;
      }
      if Last(posts).Responded? { assert posts[|posts| - 1].Responded?; }
    }
  }

  /** The gap, against "how many HTTP attempts we've made": three POSTs, yet the row says one. */
  lemma AttemptsCanLag(s: State, id: Id, status: nat)
    requires Inv(s) && InPhase(s, id, Waiting) && s.posts[id] == [] && !Ok2xx(status)
    requires id in s.deliveries && s.deliveries[id].webhook in s.webhooks && s.deliveries[id].event in s.events
    ensures var s1 := Apply(s, Process(id, Responded(status)));
      var s' := Apply(Apply(s1, Process(id, TransportError)), Process(id, TransportError));
      && id in s'.posts && |s'.posts[id]| == 3
      && id in s'.deliveries && s'.deliveries[id].attempts == 1
      && InPhase(s', id, Exhausted)
  {
    assert DeliveryInv(s, id);
    var s1 := Apply(s, Process(id, Responded(status)));
    assert s1.jobs[id] == Job(1, Waiting) && s1.deliveries[id].responseStatus == Some(status);
    var s2 := Apply(s1, Process(id, TransportError));
    assert s2.jobs[id] == Job(2, Waiting) && s2.deliveries == s1.deliveries;
  }

  /** A webhook, an event and its delivery, whose first POST is refused and the other two meet no answer. */
  function RefusedThenSilent(status: nat): seq<Action> {
    [Register(Webhook(0, ["*"], true))] + ([Record(Event(0, ""))] + ([Enqueue(0, 1)] +
      ([Process(2, Responded(status))] + ([Process(2, TransportError)] + ([Process(2, TransportError)] + [])))))
  }

  lemma AttemptsLagPossible(status: nat)
    requires !Ok2xx(status)
    ensures var s := Exec(INIT, RefusedThenSilent(status));
      && 2 in s.posts && |s.posts[2]| == 3 && 2 in s.deliveries && s.deliveries[2].attempts == 1
  {
    var t5 := [Process(2, TransportError)] + [];
    var t4 := [Process(2, TransportError)] + t5;
    var t3 := [Process(2, Responded(status))] + t4;
    var s1 := Apply(INIT, Register(Webhook(0, ["*"], true)));
    var s2 := Apply(s1, Record(Event(0, "")));
    var s3 := Apply(s2, Enqueue(0, 1));
    var s4 := Apply(s3, Process(2, Responded(status)));
    ExecCons(INIT, Register(Webhook(0, ["*"], true)), [Record(Event(0, ""))] + ([Enqueue(0, 1)] + t3));
    ExecCons(s1, Record(Event(0, "")), [Enqueue(0, 1)] + t3);
    ExecCons(s2, Enqueue(0, 1), t3);
    ExecCons(s3, Process(2, Responded(status)), t4);
    ExecCons(s4, Process(2, TransportError), t5);
    ExecCons(Apply(s4, Process(2, TransportError)), Process(2, TransportError), []);
    StepKeepsInv(INIT, Register(Webhook(0, ["*"], true)));
    StepKeepsInv(s1, Record(Event(0, "")));
    StepKeepsInv(s2, Enqueue(0, 1));
    AttemptsCanLag(s3, 2, status);
  }

  /** A SUCCESS or DEAD row never changes again; it can only be deleted. */
  lemma {:induction false} TerminalAbsorbs(s: State, actions: seq<Action>, id: Id)
    requires Inv(s) && id in s.deliveries && s.deliveries[id].status in {SUCCESS, DEAD}
    ensures id in Exec(s, actions).deliveries ==> Exec(s, actions).deliveries[id] == s.deliveries[id]
    decreases |actions|
  {
    if actions != [] {
      var s1 := Apply(s, actions[0]);
      assert DeliveryInv(s, id) && DeliveryInv(s, s.nextId);
      StepKeepsInv(s, actions[0]);
      if id in s1.deliveries {
        assert s1.deliveries[id] == s.deliveries[id];
        TerminalAbsorbs(s1, actions[1..], id);
      } else {
        assert id < s1.nextId;
        GoneStaysGone(s1, actions[1..], id);
      }
    }
  }

  lemma {:induction false} GoneStaysGone(s: State, actions: seq<Action>, id: Id)
    requires id !in s.deliveries && id < s.nextId
    ensures id !in Exec(s, actions).deliveries
    decreases |actions|
  {
    if actions != [] {
      GoneStaysGone(Apply(s, actions[0]), actions[1..], id);
    }
  }

  /**
   * The failure event fires at most once per delivery, only after all three
   * attempts failed, and always then if the row is still there.
   */
  lemma NoticeExactlyOnExhaustion(actions: seq<Action>, id: Id)
    ensures var s := Exec(INIT, actions);
      && (forall j, k :: 0 <= j < k < |s.notices| && s.notices[j].delivery == id ==> s.notices[k].delivery != id)
      && (Noticed(s, id) ==>
           && id in s.jobs && id in s.posts && s.jobs[id].phase == Closed
           && |s.posts[id]| == 3 && NoneAccepted(s.posts[id]))
      && (id in s.deliveries && id in s.jobs && s.jobs[id].phase == Closed ==> Noticed(s, id))
  {
    InvHolds(INIT, actions);
    assert DeliveryInv(Exec(INIT, actions), id);
  }

  // ----- What a row and an event are about -----------------------------------

  /** A delivery keeps its webhook, event and organization. */
  lemma StepKeepsSubject(s: State, a: Action, id: Id)
    requires id in s.deliveries && id < s.nextId && id in Apply(s, a).deliveries
    ensures var d, d' := s.deliveries[id], Apply(s, a).deliveries[id];
      d'.webhook == d.webhook && d'.event == d.event && d'.org == d.org
  {
  }

  /** A delivery belongs to its event's organization, and a failure event names its row's webhook and organization. */
  ghost predicate SubjectInv(s: State) {
    && (forall id :: id in s.deliveries ==> id < s.nextId && s.deliveries[id].event < s.nextId)
    && (forall e :: e in s.events ==> e < s.nextId)
    && (forall id :: id in s.deliveries && s.deliveries[id].event in s.events ==>
         s.deliveries[id].org == s.events[s.deliveries[id].event].org)
    && (forall j :: 0 <= j < |s.notices| ==> NoticeTells(s, s.notices[j]))
  }

  ghost predicate NoticeTells(s: State, n: FailureNotice) {
    && n.delivery < s.nextId
    && (n.delivery in s.deliveries ==>
         n.webhook == s.deliveries[n.delivery].webhook && n.org == s.deliveries[n.delivery].org)
  }

  lemma StepKeepsSubjects(s: State, a: Action)
    requires SubjectInv(s)
    ensures SubjectInv(Apply(s, a))
  {
    var s' := Apply(s, a);
    EventsComeFrom(s, a);
    RowsComeFrom(s, a);
    NoticesComeFrom(s, a);
    forall id | id in s'.deliveries && id in s.deliveries
      ensures s'.deliveries[id].event == s.deliveries[id].event && s'.deliveries[id].org == s.deliveries[id].org
    {
      StepKeepsSubject(s, a, id);
    }
    forall j | 0 <= j < |s'.notices| ensures NoticeTells(s', s'.notices[j]) {
      if j < |s.notices| {
        assert s'.notices[j] == s.notices[j] && NoticeTells(s, s.notices[j]);
        if s.notices[j].delivery in s'.deliveries { StepKeepsSubject(s, a, s.notices[j].delivery); }
      }
    }
  }

  lemma EventsComeFrom(s: State, a: Action)
    ensures s.nextId <= Apply(s, a).nextId
    ensures forall e :: e in Apply(s, a).events ==>
      (e in s.events && Apply(s, a).events[e] == s.events[e]) || (a.Record? && e == s.nextId < Apply(s, a).nextId)
  {
  }

  /** The row an enqueue adds. */
  ghost predicate FreshRow(s: State, a: Action, id: Id, d: Delivery) {
    && a.Enqueue? && a.eventId in s.events && id == s.nextId < Apply(s, a).nextId && Apply(s, a).events == s.events
    && d == Delivery(a.webhookId, a.eventId, s.events[a.eventId].org, PENDING, 0, None, None)
  }

  lemma RowsComeFrom(s: State, a: Action)
    ensures forall id :: id in Apply(s, a).deliveries ==>
      id in s.deliveries || FreshRow(s, a, id, Apply(s, a).deliveries[id])
  {
  }

  /** Only the final handler adds a notice, about a row it sees. */
  lemma NoticesComeFrom(s: State, a: Action)
    ensures var s' := Apply(s, a);
      if s'.notices == s.notices then true
      else
        && a.Notify? && a.id in s.deliveries && s'.deliveries == s.deliveries
        && s'.notices == s.notices + [FailureNotice(a.id, s.deliveries[a.id].webhook, s.deliveries[a.id].org)]
  {
  }

  lemma {:induction false} SubjectsHold(s: State, actions: seq<Action>)
    requires SubjectInv(s)
    ensures SubjectInv(Exec(s, actions))
    decreases |actions|
  {
    if actions != [] {
      StepKeepsSubjects(s, actions[0]);
      SubjectsHold(Apply(s, actions[0]), actions[1..]);
    }
  }

  /**
   * In every run a delivery row carries its event's organization, and each failure event
   * names the webhook and the organization of its row.
   */
  lemma NoticesNameTheirRow(actions: seq<Action>)
    ensures var s := Exec(INIT, actions);
      && (forall id :: id in s.deliveries && s.deliveries[id].event in s.events ==>
           s.deliveries[id].org == s.events[s.deliveries[id].event].org)
      && (forall j :: 0 <= j < |s.notices| && s.notices[j].delivery in s.deliveries ==>
           && s.notices[j].webhook == s.deliveries[s.notices[j].delivery].webhook
           && s.notices[j].org == s.deliveries[s.notices[j].delivery].org)
  {
    SubjectsHold(INIT, actions);
    var s := Exec(INIT, actions);
    assert forall j :: 0 <= j < |s.notices| ==> NoticeTells(s, s.notices[j]);
  }

  // ----- Termination ---------------------------------------------------------

  /** Steps a job and its handler can still take. */
  function StepsLeft(job: Job): nat {
    match job.phase
    case Waiting => 2 + Max(1, ATTEMPTS - job.attemptsMade)
    case Exhausted => 2
    case Marked => 1
    case _ => 0
  }

  /** The action is one of this job's own steps, and its moment has come. */
  ghost predicate JobStep(s: State, a: Action, id: Id) {
    || (a.Process? && a.id == id && InPhase(s, id, Waiting))
    || (a.MarkDead? && a.id == id && InPhase(s, id, Exhausted))
    || (a.Notify? && a.id == id && InPhase(s, id, Marked))
  }

  ghost function JobSteps(s: State, actions: seq<Action>, id: Id): nat
    decreases |actions|
  {
    if actions == [] then 0
    else (if JobStep(s, actions[0], id) then 1 else 0) + JobSteps(Apply(s, actions[0]), actions[1..], id)
  }

  lemma StepUsesUp(s: State, a: Action, id: Id)
    requires DeliveryInv(s, id) && DeliveryInv(s, s.nextId) && id in s.jobs
    ensures id in Apply(s, a).jobs
    ensures StepsLeft(Apply(s, a).jobs[id]) + (if JobStep(s, a, id) then 1 else 0) <= StepsLeft(s.jobs[id]) <= 5
  {
    if a.Process? && InPhase(s, a.id, Waiting) && a.id != id {
      ProcessFrame(s, a.id, a.reply, id);
    }
  }

  /** From any reachable state a job takes at most `StepsLeft` more steps, never more than five. */
  lemma {:induction false} JobTerminates(s: State, actions: seq<Action>, id: Id)
    requires Inv(s) && id in s.jobs
    ensures id in Exec(s, actions).jobs
    ensures JobSteps(s, actions, id) + StepsLeft(Exec(s, actions).jobs[id]) <= StepsLeft(s.jobs[id]) <= 5
    decreases |actions|
  {
    assert DeliveryInv(s, id) && DeliveryInv(s, s.nextId);
    if actions != [] {
      StepUsesUp(s, actions[0], id);
      StepKeepsInv(s, actions[0]);
      JobTerminates(Apply(s, actions[0]), actions[1..], id);
    } else {
      StepUsesUp(s, DeleteDelivery(id), id);
    }
  }
}
