/** The DigitalOcean provider of pkg/provider/digitalocean/provider.go. It registers the same
    CreateKube steps as the core provider, except that the master user data goes through a
    template and the droplet's address is awaited with a cancellable poll, and the minion record
    carries its Kube. DeleteKube, DeleteNode, the global tags, the Kubernetes wait and the
    unsupported volume and entrypoint operations are the same as the core provider's. */
module DigitalOcean {
  import opened Outcomes
  import opened Model
  import opened Cloud
  import opened Procedures
  import ProviderDO

  const IPWaitDescription: string := "master public IP assignment"

  // ---------------------------------------------------------------------------
  // createDroplet
  // ---------------------------------------------------------------------------

  /** Tag the droplet with each tag, keeping the last answer in the captured `err`; a failure
      is only logged. */
  function TagAllKeepingError(w: World, id: int, tags: seq<string>, err: Outcome): (r: (World, Outcome))
    ensures r.0 == w.(calls := w.calls + ProviderDO.TagRequests(id, tags))
    ensures tags == [] ==> r.1 == err
    ensures tags != [] ==> r.1 == Answer(w.env, |w.calls| + |tags| - 1)
    decreases |tags|
  {
    if tags == [] then (w, err)
    else
      var c := TagDroplet(tags[0], id);
      assert ProviderDO.TagRequests(id, tags) == [c] + ProviderDO.TagRequests(id, tags[1..]);
      assert (w.calls + [c]) + ProviderDO.TagRequests(id, tags[1..]) == w.calls + ProviderDO.TagRequests(id, tags);
      TagAllKeepingError(Issue(w, c), id, tags[1..], Answer(w.env, |w.calls|))
  }

  /** The IP-wait predicate, on the captured droplet pointer (the id of the droplet it points
      at, or None for nil): reload the droplet into the pointer, then read its public address.
      On a nil pointer, `droplet.ID` dereferences nil before any call; a failed reload leaves
      the pointer nil, as the SDK hands back no droplet with its error. The predicate is done
      exactly when both calls succeed; otherwise it hands back the error of the call that
      failed, which also lands in the captured `err`. Returns the world, whether it is done,
      the error, the address read and the pointer. */
  function ProbeIP(w: World, droplet: Option<int>): (r: (World, bool, Outcome, string, Option<int>))
    ensures r.0 == w.(calls := r.0.calls)
    ensures droplet.None? ==> r == (w, false, Panic(NilDereference), "", None)
    ensures droplet.Some? ==> (r.1 <==> !w.env.fails(|w.calls|) && !w.env.fails(|w.calls| + 1))
    ensures droplet.Some? && w.env.fails(|w.calls|) ==>
              r.0.calls == w.calls + [GetDroplet(droplet.value)] && r.2 == Err(w.env.message(|w.calls|)) && r.4 == None
    ensures droplet.Some? && !w.env.fails(|w.calls|) ==>
              && r.0.calls == w.calls + [GetDroplet(droplet.value), PublicIPv4(droplet.value)]
              && r.2 == Answer(w.env, |w.calls| + 1) && r.4 == droplet
    ensures r.1 ==> r.3 == w.env.text(|w.calls| + 1)
  {
    match droplet
    case None => (w, false, Panic(NilDereference), "", None)
    case Some(id) =>
      var n := |w.calls|;
      var w1 := Issue(w, GetDroplet(id));
      if NextFails(w) then (w1, false, NextError(w), "", None)
      else
        var w2 := Issue(w1, PublicIPv4(id));
        if NextFails(w1) then (w2, false, NextError(w1), "", droplet)
        else (w2, true, Ok, w.env.text(n + 1), droplet)
  }

  /** Poll the predicate at most `budget` times, stopping when it is done or panics. Returns
      the world, the captured `err` (the panic, when a poll panicked), the address found and the
      captured droplet pointer; PollIPTrace says which calls are made and how the wait ends. */
  function PollIP(w: World, droplet: Option<int>, budget: nat, err: Outcome): (r: (World, Outcome, Option<string>, Option<int>))
    ensures r.0 == w.(calls := r.0.calls)
    ensures |r.0.calls| >= |w.calls| && r.0.calls[..|w.calls|] == w.calls
    ensures r.2.Some? ==> r.1 == Ok && droplet.Some? && r.3 == droplet
    ensures budget == 0 ==> r == (w, err, None, droplet)
    ensures budget > 0 && r.2.None? ==> r.1 != Ok
    decreases budget
  {
    if budget == 0 then (w, err, None, droplet)
    else
      var p := ProbeIP(w, droplet);
      if p.1 then (p.0, Ok, Some(p.3), p.4)
      else if p.2.Panic? then (p.0, p.2, None, p.4)
      else PollIP(p.0, p.4, budget - 1, p.2)
  }

  /** The calls from position `from` on are those of an address wait on droplet `id` with at
      most `budget` polls: reloads and address lookups alternate, a poll being a reload and,
      when that succeeds, a lookup; every call but the last answers as a poll that is not done
      (the reload succeeds, the lookup fails); a last call that succeeds is a lookup; and a wait
      that ends with no call or with a failed lookup used its whole budget. */
  predicate PollTrace(calls: seq<Call>, env: Env, id: int, from: nat, budget: nat)
  {
    && from <= |calls| <= from + 2 * budget
    && (forall i :: from <= i < |calls| ==>
          calls[i] == if (i - from) % 2 == 0 then GetDroplet(id) else PublicIPv4(id))
    && (forall i :: from <= i < |calls| - 1 ==> (env.fails(i) <==> (i - from) % 2 == 1))
    && (|calls| > from && !env.fails(|calls| - 1) ==> (|calls| - from) % 2 == 0)
    && ((|calls| - from) % 2 == 0 && (|calls| == from || env.fails(|calls| - 1)) ==> |calls| == from + 2 * budget)
  }

  /** How such a wait ends, read off its calls: with the address the last call read, when it
      succeeded; otherwise with the nil-pointer panic, when the last call was a failed reload
      and polls were left; otherwise with the error of the last call, or with the captured
      `err` when no poll ran. */
  function PollEnd(calls: seq<Call>, env: Env, from: nat, budget: nat, err: Outcome): (Outcome, Option<string>)
    requires from <= |calls|
  {
    var k := |calls| - from;
    if k == 0 then (err, None)
    else if !env.fails(|calls| - 1) then (Ok, Some(env.text(|calls| - 1)))
    else if k % 2 == 1 && (k + 1) / 2 < budget then (Panic(NilDereference), None)
    else (Err(env.message(|calls| - 1)), None)
  }

  /** A poll that was not done, followed by a wait with one poll fewer, is a wait. */
  lemma PollTraceStep(calls: seq<Call>, env: Env, id: int, from: nat, budget: nat, err: Outcome)
    requires budget > 0 && from + 2 <= |calls|
    requires calls[from] == GetDroplet(id) && calls[from + 1] == PublicIPv4(id)
    requires !env.fails(from) && env.fails(from + 1)
    requires PollTrace(calls, env, id, from + 2, budget - 1)
    ensures PollTrace(calls, env, id, from, budget)
    ensures PollEnd(calls, env, from, budget, err) == PollEnd(calls, env, from + 2, budget - 1, Err(env.message(from + 1)))
  {
    forall i | from <= i < |calls|
      ensures calls[i] == if (i - from) % 2 == 0 then GetDroplet(id) else PublicIPv4(id)
    {
      if i >= from + 2 {
        assert (i - from) % 2 == (i - (from + 2)) % 2;
      }
    }
    forall i | from <= i < |calls| - 1
      ensures env.fails(i) <==> (i - from) % 2 == 1
    {
      if i >= from + 2 {
        assert (i - from) % 2 == (i - (from + 2)) % 2;
      }
    }
    assert (|calls| - from) % 2 == (|calls| - (from + 2)) % 2;
  }

  /** PollIP on the created droplet makes the calls of a wait and ends as PollEnd says. */
  predicate PollsAsTraced(w: World, id: int, budget: nat, err: Outcome)
  {
    var r := PollIP(w, Some(id), budget, err);
    && PollTrace(r.0.calls, w.env, id, |w.calls|, budget)
    && (r.1, r.2) == PollEnd(r.0.calls, w.env, |w.calls|, budget, err)
  }

  /** The polls of the address wait on the created droplet, read off the trace: PollIP makes
      the calls of such a wait and ends as PollEnd says. */
  lemma {:induction false} PollIPTrace(w: World, id: int, budget: nat, err: Outcome)
    ensures PollsAsTraced(w, id, budget, err)
    decreases budget
  {
    if budget > 0 {
      var n := |w.calls|;
      if w.env.fails(n) {
        PollIPReloadFails(w, id, budget, err);
      } else if w.env.fails(n + 1) {
        var p := ProbeIP(w, Some(id));
        PollIPTrace(p.0, id, budget - 1, p.2);
        PollIPLookupFails(w, id, budget, err);
      } else {
        PollIPFound(w, id, budget, err);
      }
    }
  }

  /** A first poll whose reload fails is the last: the next one panics, if there is one. */
  lemma PollIPReloadFails(w: World, id: int, budget: nat, err: Outcome)
    requires budget > 0 && w.env.fails(|w.calls|)
    ensures PollsAsTraced(w, id, budget, err)
  {
    var p := ProbeIP(w, Some(id));
    var r := PollIP(w, Some(id), budget, err);
    assert r == PollIP(p.0, None, budget - 1, p.2);
    assert r.0.calls == w.calls + [GetDroplet(id)];
  }

  /** A first poll that finds the address is the last. */
  lemma PollIPFound(w: World, id: int, budget: nat, err: Outcome)
    requires budget > 0 && !w.env.fails(|w.calls|) && !w.env.fails(|w.calls| + 1)
    ensures PollsAsTraced(w, id, budget, err)
  {
    var r := PollIP(w, Some(id), budget, err);
    assert r.0.calls == w.calls + [GetDroplet(id), PublicIPv4(id)];
  }

  /** A first poll whose lookup fails is followed by a wait with one poll fewer. */
  lemma PollIPLookupFails(w: World, id: int, budget: nat, err: Outcome)
    requires budget > 0 && !w.env.fails(|w.calls|) && w.env.fails(|w.calls| + 1)
    requires var p := ProbeIP(w, Some(id)); PollsAsTraced(p.0, id, budget - 1, p.2)
    ensures PollsAsTraced(w, id, budget, err)
  {
    var n := |w.calls|;
    var p := ProbeIP(w, Some(id));
    var r := PollIP(p.0, Some(id), budget - 1, p.2);
    assert PollIP(w, Some(id), budget, err) == r;
    assert r.0.calls[n] == r.0.calls[..n + 2][n] && r.0.calls[n + 1] == r.0.calls[..n + 2][n + 1];
    PollTraceStep(r.0.calls, w.env, id, n, budget, err);
  }

  /** CancellableWaitFor on the IP predicate, for the created droplet. The wait gives up
      (timeout or cancellation) after `count(n)` polls, n being the position of the WaitFor
      call; predicate errors are retried, and a panic in the predicate ends the wait. Returns
      the world, the address, the captured `err` and the wait's own outcome. */
  function WaitForIP(w: World, id: int, err: Outcome): (r: (World, Option<string>, Outcome, Outcome))
    ensures r.0 == w.(calls := r.0.calls)
    ensures |r.0.calls| > |w.calls| && r.0.calls[..|w.calls|] == w.calls
    ensures r.0.calls[|w.calls|] == WaitFor(IPWaitDescription)
    ensures r.3 == Ok <==> r.1.Some?
    ensures r.1.Some? ==> r.2 == Ok
    ensures w.env.count(|w.calls|) == 0 ==> r.1.None? && r.2 == err
    ensures r.1.None? && w.env.count(|w.calls|) > 0 ==> r.2 != Ok
  {
    var n := |w.calls|;
    var w1 := Issue(w, WaitFor(IPWaitDescription));
    var p := PollIP(w1, Some(id), w.env.count(n), err);
    (p.0, p.2, p.1, if p.2.Some? then Ok else if p.1.Panic? then p.1 else Err(w.env.message(n)))
  }

  /** The wait's polls follow the WaitFor call and end as PollEnd says; the wait returns nil
      when an address was found, the panic when a poll panicked, and its own error otherwise. */
  lemma WaitForIPTrace(w: World, id: int, err: Outcome)
    ensures var r, m := WaitForIP(w, id, err), |w.calls|;
            && PollTrace(r.0.calls, w.env, id, m + 1, w.env.count(m))
            && var e := PollEnd(r.0.calls, w.env, m + 1, w.env.count(m), err);
               && (r.2, r.1) == e
               && r.3 == (if e.1.Some? then Ok else if e.0.Panic? then e.0 else Err(w.env.message(m)))
  {
    PollIPTrace(Issue(w, WaitFor(IPWaitDescription)), id, w.env.count(|w.calls|), err);
  }

  /** The part of createDroplet before the wait, once the droplet was created: the droplet's
      id, and every tag call issued with the captured `err` of the last one. */
  function CreateAndTag(w: World, req: DropletRequest, tags: seq<string>): (r: (World, int, Outcome))
    requires !w.env.fails(|w.calls|)
    ensures r.1 == w.env.number(|w.calls|)
    ensures r.0 == w.(calls := w.calls + [Call.CreateDroplet(req)] + ProviderDO.TagRequests(r.1, tags))
    ensures r.2 == Ok <==> tags == [] || !w.env.fails(|w.calls| + |tags|)
  {
    var id := w.env.number(|w.calls|);
    var (w2, tagErr) := TagAllKeepingError(Issue(w, Call.CreateDroplet(req)), id, tags, Ok);
    (w2, id, tagErr)
  }

  /** The captured `err` once the tagging loop is over, the create being call n: the last tag
      call's answer, or nil when there are no tags. */
  function TagsError(env: Env, n: nat, tags: seq<string>): Outcome
  {
    if tags == [] then Ok else Answer(env, n + |tags|)
  }

  /** createDroplet once the droplet was created: tag, then wait for the address. Returns the
      world, the droplet's id, the address found, the captured `err` and the wait's own
      outcome. */
  function TagAndWait(w: World, req: DropletRequest, tags: seq<string>): (r: (World, int, Option<string>, Outcome, Outcome))
    requires !w.env.fails(|w.calls|)
    ensures r.1 == w.env.number(|w.calls|)
    ensures r.0 == w.(calls := r.0.calls)
    ensures |r.0.calls| > |w.calls| && r.0.calls[..|w.calls| + 1] == w.calls + [Call.CreateDroplet(req)]
    ensures r.4 == Ok <==> r.2.Some?
    ensures r.2.Some? ==> r.3 == Ok
  {
    var t := CreateAndTag(w, req, tags);
    var v := WaitForIP(t.0, t.1, t.2);
    ProviderDO.Pieces(w.calls + [Call.CreateDroplet(req)], ProviderDO.TagRequests(t.1, tags), []);
    ProviderDO.PrefixOfPrefix(v.0.calls, t.0.calls, |w.calls| + 1);
    (v.0, t.1, v.1, v.2, v.3)
  }

  /** After the create at n come the tag calls, the WaitFor at m = n + |tags| + 1 and the
      polls of a wait on the created droplet, which end as PollEnd says, starting from the
      captured `err` the tagging left. */
  lemma TagAndWaitPolls(w: World, req: DropletRequest, tags: seq<string>)
    requires !w.env.fails(|w.calls|)
    ensures var n, m := |w.calls|, |w.calls| + |tags| + 1;
            var t := TagAndWait(w, req, tags);
            && |t.0.calls| > m
            && t.0.calls[..m + 1] == w.calls + [Call.CreateDroplet(req)] + ProviderDO.TagRequests(t.1, tags) + [WaitFor(IPWaitDescription)]
            && PollTrace(t.0.calls, w.env, t.1, m + 1, w.env.count(m))
            && var e := PollEnd(t.0.calls, w.env, m + 1, w.env.count(m), TagsError(w.env, n, tags));
               && (t.3, t.2) == e
               && t.4 == (if e.1.Some? then Ok else if e.0.Panic? then e.0 else Err(w.env.message(m)))
  {
    var c := CreateAndTag(w, req, tags);
    var v := WaitForIP(c.0, c.1, c.2);
    WaitForIPTrace(c.0, c.1, c.2);
    assert TagAndWait(w, req, tags) == (v.0, c.1, v.1, v.2, v.3);
    assert c.2 == TagsError(w.env, |w.calls|, tags);
    assert v.0.calls[..|c.0.calls| + 1] == v.0.calls[..|c.0.calls|] + [v.0.calls[|c.0.calls|]];
  }

  /** The captured `err` is nil after the wait gave up exactly when it gave up before any poll
      and the last tag call, if any, succeeded. */
  lemma TagAndWaitQuietIff(w: World, req: DropletRequest, tags: seq<string>)
    requires !w.env.fails(|w.calls|)
    ensures var r := TagAndWait(w, req, tags);
            r.2.None? && r.3 == Ok <==>
              w.env.count(|w.calls| + |tags| + 1) == 0 && (tags == [] || !w.env.fails(|w.calls| + |tags|))
  {
    var t := CreateAndTag(w, req, tags);
    assert |t.0.calls| == |w.calls| + |tags| + 1;
  }

  /** createDroplet as written: create, tag (ignoring failures), wait for the address. When the
      wait does not find one it returns the captured `err` instead of the wait's error, so a
      wait that gave up before any poll, after a last tag call that succeeded, returns no
      droplet and no error. */
  function CreateDropletAsWritten(w: World, req: DropletRequest, tags: seq<string>): (r: (World, Option<Droplet>, Outcome))
    ensures r.0.kube == w.kube && r.0.saved == w.saved && r.0.nodes == w.nodes && r.0.env == w.env
    ensures |r.0.calls| > |w.calls| && r.0.calls[..|w.calls| + 1] == w.calls + [Call.CreateDroplet(req)]
    ensures w.env.fails(|w.calls|) ==> r == (w.(calls := w.calls + [Call.CreateDroplet(req)]), None, Err(w.env.message(|w.calls|)))
    ensures r.1.Some? ==> r.2 == Ok && r.1.value.id == w.env.number(|w.calls|)
  {
    if NextFails(w) then (Issue(w, Call.CreateDroplet(req)), None, NextError(w))
    else
      var t := TagAndWait(w, req, tags);
      if t.2.None? then (t.0, None, t.3)
      else (t.0, Some(Droplet(t.1, t.2.value)), Ok)
  }

  /** createDroplet as written, read off its trace after a create that succeeded: the tag
      calls, the WaitFor at m and the polls of the wait; a droplet comes back exactly when the
      polls found an address, with the created id and that address, and in every other case
      the captured `err` comes back: the last poll's error, the panic of a poll on the nil
      droplet or, when no poll ran, the last tag call's answer. */
  lemma AsWrittenPolls(w: World, req: DropletRequest, tags: seq<string>)
    requires !w.env.fails(|w.calls|)
    ensures var n, m := |w.calls|, |w.calls| + |tags| + 1;
            var r := CreateDropletAsWritten(w, req, tags);
            && |r.0.calls| > m
            && r.0.calls[..m + 1] == w.calls + [Call.CreateDroplet(req)] + ProviderDO.TagRequests(w.env.number(n), tags) + [WaitFor(IPWaitDescription)]
            && PollTrace(r.0.calls, w.env, w.env.number(n), m + 1, w.env.count(m))
            && var e := PollEnd(r.0.calls, w.env, m + 1, w.env.count(m), TagsError(w.env, n, tags));
               && r.1 == (if e.1.Some? then Some(Droplet(w.env.number(n), e.1.value)) else None)
               && r.2 == e.0
  {
    TagAndWaitPolls(w, req, tags);
  }

  /** As written, no droplet comes back with no error exactly when the create succeeded, the
      wait gave up before any poll and the last tag call, if any, succeeded. */
  lemma AsWrittenQuietIff(w: World, req: DropletRequest, tags: seq<string>)
    ensures var r := CreateDropletAsWritten(w, req, tags);
            r.1.None? && r.2 == Ok <==>
              && !w.env.fails(|w.calls|)
              && w.env.count(|w.calls| + |tags| + 1) == 0
              && (tags == [] || !w.env.fails(|w.calls| + |tags|))
  {
    if !w.env.fails(|w.calls|) {
      TagAndWaitQuietIff(w, req, tags);
    }
  }

  /** createDroplet returning the wait's own error when no address was found, as the code
      evidently intends: a droplet comes back exactly when no error does. */
  function CreateDroplet(w: World, req: DropletRequest, tags: seq<string>): (r: (World, Option<Droplet>, Outcome))
    ensures r.0.kube == w.kube && r.0.saved == w.saved && r.0.nodes == w.nodes && r.0.env == w.env
    ensures |r.0.calls| > |w.calls| && r.0.calls[..|w.calls| + 1] == w.calls + [Call.CreateDroplet(req)]
    ensures r.2 == Ok <==> r.1.Some?
    ensures r.1.Some? ==> r.1.value.id == w.env.number(|w.calls|)
    ensures w.env.fails(|w.calls|) ==> r.2 == Err(w.env.message(|w.calls|))
  {
    if NextFails(w) then (Issue(w, Call.CreateDroplet(req)), None, NextError(w))
    else
      var t := TagAndWait(w, req, tags);
      if t.2.None? then (t.0, None, t.4)
      else (t.0, Some(Droplet(t.1, t.2.value)), Ok)
  }

  /** The same trace for the createDroplet that returns the wait's error: a droplet comes back
      exactly when the polls found an address; otherwise the panic of a poll on the nil droplet
      or the wait's own error comes back. */
  lemma CreateDropletPolls(w: World, req: DropletRequest, tags: seq<string>)
    requires !w.env.fails(|w.calls|)
    ensures var n, m := |w.calls|, |w.calls| + |tags| + 1;
            var r := CreateDroplet(w, req, tags);
            && |r.0.calls| > m
            && r.0.calls[..m + 1] == w.calls + [Call.CreateDroplet(req)] + ProviderDO.TagRequests(w.env.number(n), tags) + [WaitFor(IPWaitDescription)]
            && PollTrace(r.0.calls, w.env, w.env.number(n), m + 1, w.env.count(m))
            && var e := PollEnd(r.0.calls, w.env, m + 1, w.env.count(m), TagsError(w.env, n, tags));
               && r.1 == (if e.1.Some? then Some(Droplet(w.env.number(n), e.1.value)) else None)
               && r.2 == (if e.1.Some? then Ok else if e.0.Panic? then e.0 else Err(w.env.message(m)))
  {
    TagAndWaitPolls(w, req, tags);
  }

  /** A failed reload leaves the captured droplet nil and the next poll dereferences it: when
      the create succeeds, the first reload fails and the wait allows a second poll,
      createDroplet panics, whichever error it returns. */
  lemma ReloadFailurePanics(w: World, req: DropletRequest, tags: seq<string>)
    requires !w.env.fails(|w.calls|) && w.env.fails(|w.calls| + |tags| + 2)
    requires w.env.count(|w.calls| + |tags| + 1) >= 2
    ensures CreateDropletAsWritten(w, req, tags).2 == Panic(NilDereference)
    ensures CreateDroplet(w, req, tags).2 == Panic(NilDereference)
  {
    var m := |w.calls| + |tags| + 1;
    AsWrittenPolls(w, req, tags);
    CreateDropletPolls(w, req, tags);
    var r := CreateDroplet(w, req, tags);
    assert |r.0.calls| == m + 2;
  }

  /** The tagging loop of createDroplet, with the captured `err` updated in place. */
  method TagEach(w0: World, id: int, tags: seq<string>) returns (w: World, err: Outcome)
    ensures (w, err) == TagAllKeepingError(w0, id, tags, Ok)
  {
    w, err := w0, Ok;
    var i := 0;
    while i < |tags|
      invariant 0 <= i <= |tags|
      invariant TagAllKeepingError(w, id, tags[i..], err) == TagAllKeepingError(w0, id, tags, Ok)
    {
      assert tags[i..][1..] == tags[i + 1..];
      err := Answer(w.env, |w.calls|);
      w := Issue(w, TagDroplet(tags[i], id));
      i := i + 1;
    }
  }

  /** The polling loop of the address wait, with the captured droplet pointer, address and
      `err` updated in place, for at most `budget` polls; a poll on the nil pointer panics. */
  method PollEach(w0: World, droplet0: Option<int>, budget: nat, err0: Outcome)
    returns (w: World, err: Outcome, publicIP: Option<string>, droplet: Option<int>)
    ensures (w, err, publicIP, droplet) == PollIP(w0, droplet0, budget, err0)
  {
    w, err, publicIP, droplet := w0, err0, None, droplet0;
    var polls := 0;
    while polls < budget && publicIP.None?
      invariant 0 <= polls <= budget
      invariant publicIP.None? ==> PollIP(w, droplet, budget - polls, err) == PollIP(w0, droplet0, budget, err0)
      invariant publicIP.Some? ==> (w, err, publicIP, droplet) == PollIP(w0, droplet0, budget, err0)
      decreases budget - polls
    {
      if droplet.None? {
        return w, Panic(NilDereference), None, None;
      }
      var probe := ProbeIP(w, droplet);
      w, droplet := probe.0, probe.4;
      if probe.1 {
        err, publicIP := Ok, Some(probe.3);
      } else {
        err := probe.2;
      }
      polls := polls + 1;
    }
  }

  /** createDroplet as written, step by step: create, the tagging loop, then the wait's polling
      loop; the reloaded droplet comes back only when an address was found, and otherwise the
      captured `err`. */
  method CreateDropletSteps(w0: World, req: DropletRequest, tags: seq<string>)
    returns (w: World, droplet: Option<Droplet>, err: Outcome)
    ensures (w, droplet, err) == CreateDropletAsWritten(w0, req, tags)
  {
    var n := |w0.calls|;
    w := Issue(w0, Call.CreateDroplet(req));
    if w0.env.fails(n) {
      return w, None, Err(w0.env.message(n));
    }
    var id := w0.env.number(n);
    w, err := TagEach(w, id, tags);
    var m := |w.calls|;
    w := Issue(w, WaitFor(IPWaitDescription));
    var publicIP, pointer;
    w, err, publicIP, pointer := PollEach(w, Some(id), w.env.count(m), err);
    if publicIP.None? {
      return w, None, err;
    }
    droplet := Some(Droplet(pointer.value, publicIP.value));
    err := Ok;
  }

  // ---------------------------------------------------------------------------
  // The master step
  // ---------------------------------------------------------------------------

  /** The master's user data: the file is read, parsed as a template and executed against the
      Kube, at calls n, n + 1 and n + 2; the executed template is the answer to the last. */
  function MasterUserData(w: World): (r: (World, Result<string>))
    ensures r.0 == w.(calls := r.0.calls)
    ensures |w.calls| < |r.0.calls| <= |w.calls| + 3 && r.0.calls[..|w.calls|] == w.calls
    ensures r.0.calls[|w.calls|] == ReadFile(ProviderDO.MasterUserdataPath)
    ensures r.1.Success? <==> !w.env.fails(|w.calls|) && !w.env.fails(|w.calls| + 1) && !w.env.fails(|w.calls| + 2)
    ensures r.1.Success? ==> |r.0.calls| == |w.calls| + 3 && r.1.value == w.env.text(|w.calls| + 2)
  {
    var n := |w.calls|;
    var w1 := Issue(w, ReadFile(ProviderDO.MasterUserdataPath));
    if NextFails(w) then (w1, Failure(w.env.message(n)))
    else
      var w2 := Issue(w1, ParseTemplate(w.env.text(n)));
      if NextFails(w1) then (w2, Failure(w.env.message(n + 1)))
      else
        var w3 := Issue(w2, ExecuteTemplate(w.env.text(n)));
        if NextFails(w2) then (w3, Failure(w.env.message(n + 2)))
        else (w3, Success(w.env.text(n + 2)))
  }

  /** The end of the step: return createDroplet's error, else record the droplet's id and
      address on the Kube, dereferencing the droplet. */
  function RecordMaster(k: Kube, created: (World, Option<Droplet>, Outcome)): (r: (World, Outcome))
    ensures r.1 != Ok ==> r.0 == created.0
    ensures r.1 == Ok ==> created.1.Some? && r.0 == created.0.(kube := k.(doConfig := k.doConfig.(masterID := created.1.value.id), masterPublicIP := created.1.value.publicIP))
    ensures r.1.Panic? ==> created.2.Panic? || (created.2 == Ok && created.1.None?)
  {
    var (w, d, err) := created;
    if err != Ok then (w, err)
    else match d
      case None => (w, Panic(NilDereference))
      case Some(droplet) =>
        (w.(kube := k.(doConfig := k.doConfig.(masterID := droplet.id), masterPublicIP := droplet.publicIP)), Ok)
  }

  /** The master droplet, once the user data is read: create it with createDroplet as
      written or, when `corrected`, with the one returning the wait's error, and record it.
      The create call comes first; an error leaves the Kube as it was; success records the
      created id. */
  function CreateMaster(w: World, userData: string, corrected: bool): (r: (World, Outcome))
    ensures r.0.saved == w.saved && r.0.nodes == w.nodes && r.0.env == w.env
    ensures |r.0.calls| > |w.calls| && r.0.calls[..|w.calls| + 1] == w.calls + [Call.CreateDroplet(ProviderDO.MasterRequest(w.kube, userData))]
    ensures r.1 != Ok ==> r.0.kube == w.kube
    ensures r.1 == Ok ==>
              r.0.kube == w.kube.(doConfig := w.kube.doConfig.(masterID := w.env.number(|w.calls|)),
                                  masterPublicIP := r.0.kube.masterPublicIP)
  {
    var req := ProviderDO.MasterRequest(w.kube, userData);
    var tags := ProviderDO.MasterTags(w.kube);
    if corrected then RecordMaster(w.kube, CreateDroplet(w, req, tags))
    else RecordMaster(w.kube, CreateDropletAsWritten(w, req, tags))
  }

  /** "creating master", with the droplet created by createDroplet as written or, when
      `corrected`, by the one returning the wait's error: skipped once the master has an
      address; it keeps the saved model, the node table and the earlier calls, and an error or
      a panic leaves the Kube as it was (see MasterStepCreates for what success records). */
  function MasterStepUsing(w: World, corrected: bool): (r: (World, Outcome))
    ensures w.kube.masterPublicIP != "" ==> r == (w, Ok)
    ensures r.0.saved == w.saved && r.0.nodes == w.nodes && r.0.env == w.env
    ensures |r.0.calls| >= |w.calls| && r.0.calls[..|w.calls|] == w.calls
    ensures r.1 != Ok ==> r.0.kube == w.kube
  {
    if w.kube.masterPublicIP != "" then (w, Ok)
    else
      var u := MasterUserData(w);
      if u.1.Failure? then (u.0, Err(u.1.error))
      else
        var r := CreateMaster(u.0, u.1.value, corrected);
        ProviderDO.PrefixOfPrefix(r.0.calls, u.0.calls + [Call.CreateDroplet(ProviderDO.MasterRequest(w.kube, u.1.value))], |u.0.calls|);
        ProviderDO.PrefixOfPrefix(r.0.calls, u.0.calls, |w.calls|);
        r
  }

  /** The master step as the provider registers it, with createDroplet as written. */
  function MasterStep(w: World): (World, Outcome)
  {
    MasterStepUsing(w, false)
  }

  /** The master step with createDroplet returning the wait's error. */
  function MasterStepCorrected(w: World): (World, Outcome)
  {
    MasterStepUsing(w, true)
  }

  /** Without an address, a step that returns nil created the master droplet at position
      n + 3, from the executed template, recorded its id as MasterID and the address read by
      the step's last call as MasterPublicIP, and changed no other field of the Kube. */
  lemma MasterStepCreates(w: World)
    requires w.kube.masterPublicIP == ""
    ensures var r, n := MasterStep(w), |w.calls|;
            r.1 == Ok ==>
              && r.0.kube == w.kube.(doConfig := w.kube.doConfig.(masterID := w.env.number(n + 3)),
                                     masterPublicIP := w.env.text(|r.0.calls| - 1))
              && |r.0.calls| > n + 3
              && r.0.calls[n + 3] == Call.CreateDroplet(ProviderDO.MasterRequest(w.kube, w.env.text(n + 2)))
  {
    var u := MasterUserData(w);
    if u.1.Success? {
      var req := ProviderDO.MasterRequest(w.kube, u.1.value);
      var r := CreateMaster(u.0, u.1.value, false);
      assert MasterStep(w) == r;
      var head := u.0.calls + [Call.CreateDroplet(req)];
      assert r.0.calls[|u.0.calls|] == r.0.calls[..|head|][|u.0.calls|];
      if r.1 == Ok {
        AsWrittenPolls(u.0, req, ProviderDO.MasterTags(w.kube));
      }
    }
  }

  /** The master step as written panics on the nil droplet: template steps, create and last
      tag succeed, and the address wait gives up before its first poll. The corrected step
      returns the wait's error instead. */
  lemma MasterStepAsWrittenPanics(w: World)
    requires w.kube.masterPublicIP == ""
    requires forall i :: |w.calls| <= i <= |w.calls| + 3 ==> !w.env.fails(i)
    requires !w.env.fails(|w.calls| + 6) && w.env.count(|w.calls| + 7) == 0
    ensures MasterStep(w).1.Panic?
    ensures MasterStepCorrected(w).1 == Err(w.env.message(|w.calls| + 7))
  {
    var n := |w.calls|;
    assert !w.env.fails(n) && !w.env.fails(n + 1) && !w.env.fails(n + 2) && !w.env.fails(n + 3);
    var u := MasterUserData(w);
    AsWrittenQuietIff(u.0, ProviderDO.MasterRequest(w.kube, u.1.value), ProviderDO.MasterTags(w.kube));
  }

  /** Both master steps panic when the first reload of the created droplet fails and the wait
      allows a second poll: the poll dereferences the droplet pointer the reload set to nil. */
  lemma MasterStepReloadPanics(w: World)
    requires w.kube.masterPublicIP == ""
    requires forall i :: |w.calls| <= i <= |w.calls| + 3 ==> !w.env.fails(i)
    requires w.env.fails(|w.calls| + 8) && w.env.count(|w.calls| + 7) >= 2
    ensures MasterStep(w).1 == Panic(NilDereference)
    ensures MasterStepCorrected(w).1 == Panic(NilDereference)
  {
    var n := |w.calls|;
    assert !w.env.fails(n) && !w.env.fails(n + 1) && !w.env.fails(n + 2) && !w.env.fails(n + 3);
    var u := MasterUserData(w);
    ReloadFailurePanics(u.0, ProviderDO.MasterRequest(w.kube, u.1.value), ProviderDO.MasterTags(w.kube));
  }

  // ---------------------------------------------------------------------------
  // CreateKube
  // ---------------------------------------------------------------------------

  /** "building Kubernetes minion": as in the core provider, with the Kube attached to the new
      node record. */
  function MinionStep(w: World): (World, Outcome)
  {
    ProviderDO.MinionStepWith(w, true)
  }

  function CreateKubeSteps(): seq<Step<World>>
  {
    [ Step("creating global tags for Kube", ProviderDO.TagStep),
      Step("creating master", MasterStep),
      Step("building Kubernetes minion", MinionStep),
      Step("waiting for Kubernetes", ProviderDO.WaitForKubernetes) ]
  }

  /** CreateKube: a "Create Kube" procedure of the four steps, in order, run once. */
  method CreateKube(w0: World) returns (w: World, err: Outcome, trace: seq<Event>)
    ensures (w, err, trace) == Exec(CreateKubeSteps(), SaveKube, 0, w0)
  {
    var procedure := new Procedure<World>("Create Kube", SaveKube);
    procedure.AddStep("creating global tags for Kube", ProviderDO.TagStep);
    procedure.AddStep("creating master", MasterStep);
    procedure.AddStep("building Kubernetes minion", MinionStep);
    procedure.AddStep("waiting for Kubernetes", ProviderDO.WaitForKubernetes);
    assert procedure.steps == CreateKubeSteps();
    w, err, trace := procedure.Run(w0);
  }

  lemma CreateKubeStepsKeep(from: nat, j: nat, x: World)
    requires j < 4 && ProviderDO.NothingLeftToCreate(from, x)
    ensures ProviderDO.NothingLeftToCreate(from, CreateKubeSteps()[j].fn(x).0)
  {
    var steps := CreateKubeSteps();
    if j == 0 {
      assert steps[j].fn == ProviderDO.TagStep;
      ProviderDO.TagStepKeeps(from, x);
    } else if j == 1 {
      assert steps[j].fn == MasterStep;
    } else if j == 2 {
      assert steps[j].fn == MinionStep;
      ProviderDO.MinionStepKeeps(from, x, true);
    } else {
      assert steps[j].fn == ProviderDO.WaitForKubernetes;
      ProviderDO.WaitKeeps(from, x);
    }
  }

  /** Re-running Create Kube on a Kube whose master has an address and which has a node record
      provisions nothing and deletes nothing. */
  lemma CreateKubeRerunProvisionsNothing(w: World)
    requires w.kube.masterPublicIP != "" && NodesOf(w.nodes, w.kube.id) != []
    ensures var w' := Exec(CreateKubeSteps(), SaveKube, 0, w).0;
            forall i :: |w.calls| <= i < |w'.calls| ==> !ProviderDO.Provisions(w'.calls[i])
  {
    var from := |w.calls|;
    var inv := (x: World) => ProviderDO.NothingLeftToCreate(from, x);
    forall j, x | 0 <= j < |CreateKubeSteps()| && inv(x)
      ensures inv(CreateKubeSteps()[j].fn(x).0)
    {
      CreateKubeStepsKeep(from, j, x);
    }
    forall x | inv(x)
      ensures inv(SaveKube(x).0)
    {
      ProviderDO.SaveKeeps(from, x);
    }
    ExecPreserves(CreateKubeSteps(), SaveKube, 0, w, inv);
  }
}
