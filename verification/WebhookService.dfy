/** WebhooksService and WebhooksProcessor over one store. */
module WebhookService {
  import opened Basics
  import opened WebhookModel

  /** The fan-out of one event: an enqueue per webhook, in order. */
  function Enqueues(webhooks: seq<Id>, eventId: Id): seq<Action> {
    seq(|webhooks|, i requires 0 <= i < |webhooks| => Enqueue(webhooks[i], eventId))
  }

  predicate Wants(w: Webhook, org: OrgId, kind: string) {
    w.org == org && w.isActive && ("*" in w.events || kind in w.events)
  }

  /** A delivery that no attempt has touched, with its job. */
  predicate Queued(s: State, id: Id, webhook: Id, eventId: Id, org: OrgId) {
    && id in s.deliveries && s.deliveries[id] == Delivery(webhook, eventId, org, PENDING, 0, None, None)
    && id in s.jobs && s.jobs[id] == Job(0, Waiting) && id in s.posts && s.posts[id] == []
  }

  /** Every webhook of the fan-out gets one fresh PENDING delivery and one fresh job. */
  lemma {:induction false} FanOutCreates(s: State, webhooks: seq<Id>, eventId: Id)
    requires eventId in s.events
    ensures var s' := Exec(s, Enqueues(webhooks, eventId));
      && s'.nextId == s.nextId + |webhooks| && s'.events == s.events && s'.webhooks == s.webhooks
      && s'.notices == s.notices
      && (forall id :: id < s.nextId ==>
           Get(s'.deliveries, id) == Get(s.deliveries, id) && Get(s'.jobs, id) == Get(s.jobs, id))
      && (forall i :: 0 <= i < |webhooks| ==> Queued(s', s.nextId + i, webhooks[i], eventId, s.events[eventId].org))
  {
    if webhooks == [] {
      assert Enqueues(webhooks, eventId) == [];
    } else {
      var front, w := ButLast(webhooks), Last(webhooks);
      FanOutCreates(s, front, eventId);
      assert Enqueues(webhooks, eventId) == Enqueues(front, eventId) + ([Enqueue(w, eventId)] + []);
      ExecAppend(s, Enqueues(front, eventId), [Enqueue(w, eventId)] + []);
      var s1 := Exec(s, Enqueues(front, eventId));
      ExecCons(s1, Enqueue(w, eventId), []);
      var s' := Exec(s, Enqueues(webhooks, eventId));
      assert s' == DoEnqueue(s1, w, eventId);
      forall i | 0 <= i < |webhooks| ensures Queued(s', s.nextId + i, webhooks[i], eventId, s.events[eventId].org) {
        if i < |front| {
          assert front[i] == webhooks[i];
        }
      }
    }
  }

  lemma OneMore(s: State, fanOut: seq<Id>, w: Id, eventId: Id)
    ensures Exec(s, Enqueues(fanOut + [w], eventId)) == Apply(Exec(s, Enqueues(fanOut, eventId)), Enqueue(w, eventId))
  {
    assert Enqueues(fanOut + [w], eventId) == Enqueues(fanOut, eventId) + ([Enqueue(w, eventId)] + []);
    ExecAppend(s, Enqueues(fanOut, eventId), [Enqueue(w, eventId)] + []);
    ExecCons(Exec(s, Enqueues(fanOut, eventId)), Enqueue(w, eventId), []);
  }

  /** The row, its webhook or its event is gone. */
  predicate Missing(s: State, id: Id) {
    id !in s.deliveries || s.deliveries[id].webhook !in s.webhooks || s.deliveries[id].event !in s.events
  }

  predicate LastAccepted(posts: seq<Reply>) {
    posts != [] && Last(posts).Responded? && 200 <= Last(posts).status < 300
  }

  function Without(s: State, gone: set<Id>): State {
    s.(deliveries := s.deliveries - gone, webhooks := s.webhooks - gone, events := s.events - gone)
  }

  lemma WithoutKeepsInv(s: State, gone: set<Id>)
    requires Inv(s)
    ensures Inv(Without(s, gone))
  {
    forall id ensures DeliveryInv(Without(s, gone), id) {
      assert DeliveryInv(s, id);
      assert Noticed(Without(s, gone), id) <==> Noticed(s, id);
    }
  }

  lemma NoticedIfThere(s: State, id: Id)
    requires Inv(s) && InPhase(s, id, Marked)
    ensures Noticed(DoNotify(s, id), id) <==> id in s.deliveries
  {
    assert DeliveryInv(s, id);
    var s' := DoNotify(s, id);
    if id in s.deliveries {
      assert Last(s'.notices).delivery == id;
    }
    if Noticed(s', id) {
      var j :| 0 <= j < |s'.notices| && s'.notices[j].delivery == id;
      assert j < |s.notices| ==> Noticed(s, id);
    }
  }

  /** What a finished job left in its row, if the row is still there. */
  lemma FinishedRow(s: State, id: Id)
    requires Inv(s) && id in s.jobs && id in s.posts && s.jobs[id].phase in {Completed, Closed}
    ensures |s.posts[id]| <= 3
    ensures id in s.deliveries ==> s.deliveries[id].status == if LastAccepted(s.posts[id]) then SUCCESS else DEAD
    ensures Noticed(s, id) ==> s.jobs[id].phase == Closed
  {
    assert DeliveryInv(s, id);
    var posts := s.posts[id];
    if posts != [] {
      assert posts == ButLast(posts) + [Last(posts)];
      assert NoneAccepted(posts) <==> !Accepted(Last(posts));
    }
  }

  lemma DispatchKeepsInv(s: State, e: Event, fanOut: seq<Id>, eventId: Id)
    ensures Inv(s) ==> Inv(Exec(Apply(s, Record(e)), Enqueues(fanOut, eventId)))
  {
    if Inv(s) {
      StepKeepsInv(s, Record(e));
      InvHolds(Apply(s, Record(e)), Enqueues(fanOut, eventId));
    }
  }

  class WebhookPlatform {
    var webhooks: map<Id, Webhook>
    var events: map<Id, Event>
    var deliveries: map<Id, Delivery>
    var jobs: map<Id, Job>              // the BullMQ queue
    var notices: seq<FailureNotice>     // emitted events
    var posts: map<Id, seq<Reply>>      // the model's own record of what was sent
    var nextId: Id

    ghost function Now(): State
      reads this
    {
      State(webhooks, events, deliveries, jobs, notices, posts, nextId)
    }

    constructor ()
      ensures Now() == INIT
    {
      webhooks, events, deliveries, jobs := map[], map[], map[], map[];
      notices, posts, nextId := [], map[], 0;
    }

    method CreateDeliveryAndEnqueue(webhookId: Id, eventId: Id) returns (id: Id)
      requires eventId in events
      modifies this
      ensures id == old(nextId) && Now() == Apply(old(Now()), Enqueue(webhookId, eventId))
    {
      id := nextId;
      nextId := nextId + 1;
      deliveries := deliveries[id := NewDelivery(webhookId, eventId, events[eventId].org)];
      posts := posts[id := []];
      jobs := jobs[id := Job(0, Waiting)];
    }

    /** Record the event, then fan it out to the active webhooks that want it. */
    method DispatchEvent(org: OrgId, kind: string) returns (eventId: Id, fanOut: seq<Id>)
      modifies this
      ensures eventId == old(nextId)
      ensures forall w :: multiset(fanOut)[w] <= 1
      ensures forall w :: w in fanOut <==>
        (w in old(webhooks) && old(webhooks)[w].org == org && old(webhooks)[w].isActive
         && ("*" in old(webhooks)[w].events || kind in old(webhooks)[w].events))
      ensures eventId in events && events[eventId] == Event(org, kind)
      ensures Now() == Exec(Apply(old(Now()), Record(Event(org, kind))), Enqueues(fanOut, eventId))
      ensures old(Inv(Now())) ==> Inv(Now())
    {
      ghost var s := Now();
      eventId := nextId;
      events := events[eventId := Event(org, kind)];
      nextId := nextId + 1;
      var matching := set w | w in webhooks && Wants(webhooks[w], org, kind);
      fanOut := EnqueueAll(matching, eventId);
      assert forall w :: w in fanOut <==> multiset(fanOut)[w] > 0;
      DispatchKeepsInv(s, Event(org, kind), fanOut, eventId);
    }

    /** The loop of the fan-out, over the webhooks that want the event. */
    method EnqueueAll(matching: set<Id>, eventId: Id) returns (fanOut: seq<Id>)
      requires eventId in events
      modifies this
      ensures forall w :: multiset(fanOut)[w] == if w in matching then 1 else 0
      ensures events == old(events)
      ensures Now() == Exec(old(Now()), Enqueues(fanOut, eventId))
    {
      ghost var s := Now();
      var todo := matching;
      fanOut := [];
      assert Enqueues([], eventId) == [];
      while todo != {}
        invariant todo <= matching && eventId in events && events == s.events
        invariant forall w :: multiset(fanOut)[w] == if w in matching - todo then 1 else 0
        invariant Now() == Exec(s, Enqueues(fanOut, eventId))
        decreases |todo|
      {
        var w :| w in todo;
        todo := todo - {w};
        var delivery := CreateDeliveryAndEnqueue(w, eventId);
        OneMore(s, fanOut, w, eventId);
        fanOut := fanOut + [w];
      }
    }

    /** The processor's attempt: returns normally, or throws so that the queue retries. */
    method Process(id: Id, reply: Reply) returns (threw: bool)
      requires InPhase(Now(), id, Waiting)
      modifies this
      ensures Now() == Apply(old(Now()), WebhookModel.Process(id, reply))
    {
      threw := Attempt(id, reply);
      if threw {
        var made := jobs[id].attemptsMade + 1;
        jobs := jobs[id := Job(made, if made < ATTEMPTS then Waiting else Exhausted)];
      } else {
        jobs := jobs[id := jobs[id].(phase := Completed)];
      }
    }

    /** `process` itself, on the row it loads. */
    method Attempt(id: Id, reply: Reply) returns (threw: bool)
      requires InPhase(Now(), id, Waiting)
      modifies this`deliveries, this`posts
      ensures var done := Apply(old(Now()), WebhookModel.Process(id, reply));
        && done.deliveries == deliveries && done.posts == posts
        && done.jobs == if threw then Fail(old(Now()), id).jobs else Complete(old(Now()), id).jobs
    {
      if id !in deliveries {
        return false;                               // the row is gone
      }
      var delivery := deliveries[id];
      if delivery.status == SUCCESS {
        return false;                               // done by an earlier attempt
      }
      if delivery.webhook !in webhooks || delivery.event !in events {
        delivery := delivery.(status := DEAD);
        delivery := delivery.(lastError := Some(SourceGone));
        deliveries := deliveries[id := delivery];
        return false;
      }
      delivery := delivery.(attempts := delivery.attempts + 1);
      posts := posts[id := posts[id] + [reply]];
      if reply.Responded? {
        delivery := delivery.(responseStatus := Some(reply.status));
        if Ok2xx(reply.status) {
          delivery := delivery.(status := SUCCESS);
          delivery := delivery.(lastError := None);
          deliveries := deliveries[id := delivery];
          return false;
        }
        delivery := delivery.(status := FAILED);
        delivery := delivery.(lastError := Some(HttpError(reply.status)));
        deliveries := deliveries[id := delivery];
      } else if delivery.responseStatus == None {
        delivery := delivery.(status := FAILED);
        delivery := delivery.(lastError := Some(TransportFault));
        deliveries := deliveries[id := delivery];
      }
      threw := true;
    }

    /** The `failed` handler after the last attempt: dead-letter the row, then notify if it is there. */
    method OnFailed(id: Id)
      requires InPhase(Now(), id, Exhausted)
      modifies this
      ensures Now() == Apply(Apply(old(Now()), MarkDead(id)), Notify(id))
    {
      if id in deliveries {
        deliveries := deliveries[id := deliveries[id].(status := DEAD)];
      }
      jobs := jobs[id := jobs[id].(phase := Marked)];
      assert Now() == Apply(old(Now()), MarkDead(id));
      if id in deliveries {
        notices := notices + [FailureNotice(id, deliveries[id].webhook, deliveries[id].org)];
      }
      jobs := jobs[id := jobs[id].(phase := Closed)];
    }

    /** Deliveries, webhooks or events that others delete meanwhile. */
    method Delete(gone: set<Id>)
      requires Inv(Now())
      modifies this
      ensures Now() == Without(old(Now()), gone) && Inv(Now())
    {
      WithoutKeepsInv(Now(), gone);
      deliveries := deliveries - gone;
      webhooks := webhooks - gone;
      events := events - gone;
    }

    /** One attempt: it posts unless something it needs is missing, and only an unaccepted POST is retried. */
    method Try(id: Id, reply: Reply) returns (posted: bool)
      requires Inv(Now()) && InPhase(Now(), id, Waiting)
      modifies this
      ensures Inv(Now()) && id in jobs && id in posts
      ensures posts[id] == old(posts[id]) + (if posted then [reply] else [])
      ensures posted <==> !Missing(Now(), id)
      ensures jobs[id].phase ==
        if !posted || Accepted(reply) then Completed else if |posts[id]| < 3 then Waiting else Exhausted
    {
      ghost var s := Now();
      assert DeliveryInv(s, id);
      posted := id in deliveries && deliveries[id].webhook in webhooks && deliveries[id].event in events;
      var threw := Process(id, reply);
      StepKeepsInv(s, WebhookModel.Process(id, reply));
    }

    /**
     * A job run to its end, whatever it meets and whatever is deleted before any of
     * its attempts and before its handler: it posts until a POST is accepted, three
     * were made or something is missing; a row that is still there ends SUCCESS or
     * DEAD; the failure event fires exactly if three POSTs failed and the row is there.
     */
    method RunJob(id: Id, replies: seq<Reply>, gone: seq<set<Id>>) returns (used: nat)
      requires Inv(Now()) && InPhase(Now(), id, Waiting) && |replies| == ATTEMPTS && |gone| == ATTEMPTS + 1
      modifies this
      ensures Inv(Now()) && id in jobs && id in posts && jobs[id].phase in {Completed, Closed}
      ensures used <= 3 && posts[id] == old(posts[id]) + replies[..used] && |posts[id]| <= 3
      ensures |posts[id]| == 3 || LastAccepted(posts[id]) || Missing(Now(), id)
      ensures id in deliveries ==> deliveries[id].status == if LastAccepted(posts[id]) then SUCCESS else DEAD
      ensures Noticed(Now(), id) <==> |posts[id]| == 3 && !LastAccepted(posts[id]) && id in deliveries
    {
      used := 0;
      assert DeliveryInv(Now(), id);
      while jobs[id].phase == Waiting
        invariant Inv(Now()) && id in jobs && id in posts && used <= 3 && posts[id] == old(posts[id]) + replies[..used]
        invariant jobs[id].phase == Waiting ==> |posts[id]| < 3
        invariant jobs[id].phase in {Waiting, Completed, Exhausted}
        invariant jobs[id].phase == Completed ==>
          LastAccepted(posts[id]) || (|posts[id]| < 3 && Missing(Now(), id))
        invariant jobs[id].phase == Exhausted ==> |posts[id]| == 3 && !LastAccepted(posts[id])
        decreases jobs[id].phase == Waiting, 3 - used
      {
        Delete(gone[used]);
        var posted := Try(id, replies[used]);
        if posted {
          assert replies[..used + 1] == replies[..used] + [replies[used]];
          used := used + 1;
        }
        assert DeliveryInv(Now(), id);
      }
      if jobs[id].phase == Exhausted {
        Delete(gone[ATTEMPTS]);
        CloseFailed(id);
      }
      FinishedRow(Now(), id);
    }

    method CloseFailed(id: Id)
      requires Inv(Now()) && InPhase(Now(), id, Exhausted)
      modifies this
      ensures Inv(Now()) && id in jobs && jobs[id].phase == Closed && posts == old(posts)
      ensures Noticed(Now(), id) <==> id in deliveries
    {
      ghost var s := Now();
      assert DeliveryInv(s, id);
      OnFailed(id);
      StepKeepsInv(s, MarkDead(id));
      StepKeepsInv(Apply(s, MarkDead(id)), Notify(id));
      NoticedIfThere(Apply(s, MarkDead(id)), id);
    }
  }
}
