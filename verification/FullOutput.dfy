// What a worker does to what others published when the output has no entry for it (worker.c).
module FullOutput {
  import opened Common
  import opened Bytes
  import opened Framing
  import opened Net
  import opened Channel
  import opened ChannelRuns
  import opened Pipeline
  import opened OutputBytes
  import opened OutputRuns
  import O = Output

  // ---------------------------------------------------------------------------------------
  // Building a run.

  // s is where acts lead from s0.
  ghost predicate LeadsTo(ws: seq<Setup>, space: nat, s0: Wired, acts: seq<Act>, s: Wired, script: seq<Send>) {
    && SetupOk(ws, space) && Steps(ws, space, s0, acts) == Some(s)
    && Inv(ws, space, s, script) && Uniform(ws, space, s.p)
  }

  lemma {:induction false} StepsAppend(ws: seq<Setup>, space: nat, s0: Wired, acts: seq<Act>, act: Act)
    requires Steps(ws, space, s0, acts).Some?
    requires Step1(ws, space, Steps(ws, space, s0, acts).value, act).Some?
    ensures Steps(ws, space, s0, acts + [act]) == Step1(ws, space, Steps(ws, space, s0, acts).value, act)
    decreases |acts|
  {
    hide Step1;
    if acts == [] {
      assert acts + [act] == [act];
    } else {
      assert (acts + [act])[1..] == acts[1..] + [act];
      StepsAppend(ws, space, Step1(ws, space, s0, acts[0]).value, acts[1..], act);
    }
  }

  lemma Go(ws: seq<Setup>, space: nat, s0: Wired, acts: seq<Act>, s: Wired, script: seq<Send>, act: Act)
      returns (acts': seq<Act>, s': Wired)
    requires LeadsTo(ws, space, s0, acts, s, script) && Enabled(ws, space, s, act) && !(act.Stores? && act.d.Scribble?)
    ensures LeadsTo(ws, space, s0, acts', s', script) && Step1(ws, space, s, act) == Some(s')
  {
    hide Inv, Uniform, SetupOk, Enabled, Step1, OneResult;
    StepKeeps(ws, space, s, script, act);
    StepsAppend(ws, space, s0, acts, act);
    acts', s' := acts + [act], Step1(ws, space, s, act).value;
  }

  // A worker that waits, with nothing published for it and an entry for every queue.
  ghost predicate Fresh(c: State<Message>) {
    && c.consumer.Waiting? && c.sem == 0 && 0 <= c.cursor < |c.qs|
    && (forall i :: 0 <= i < |c.producers| ==> c.producers[i].Ready?)
    && forall q :: 0 <= q < |c.qs| ==> c.qs[q].full == [] && c.qs[q].empty != []
  }

  // Everything is at rest but what the output has published.
  ghost predicate Rested(ws: seq<Setup>, z: Sizes, s: Wired) {
    && SizesOk(ws, z) && |ws| == |s.p.ins| == |s.p.out.producers| == |s.m.stage| == |s.m.left| && s.p.fell == {}
    && (forall w :: 0 <= w < |ws| ==>
          Fresh(s.p.ins[w]) && |s.p.ins[w].producers| == z.ps[w] && s.p.out.producers[w].Ready?)
    && |s.p.out.qs| == 1 && s.p.out.cursor == 0 && s.p.out.consumer.Waiting? && s.p.out.sem == |s.p.out.qs[0].full|
    && !s.m.strayed && |s.m.data| == z.outlen
  }

  lemma GoInput(ws: seq<Setup>, space: nat, s0: Wired, acts: seq<Act>, s: Wired, script: seq<Send>, w: int,
                act: Action<Message>)
      returns (acts': seq<Act>, s': Wired)
    requires LeadsTo(ws, space, s0, acts, s, script) && 0 <= w < |s.p.ins| && !act.Serve? && !act.Recycle?
    requires Step(Origin, s.p.ins[w], act).Some?
    ensures LeadsTo(ws, space, s0, acts', s', script)
    ensures s' == s.(p := s.p.(ins := s.p.ins[w := Step(Origin, s.p.ins[w], act).value.0]))
  {
    hide Inv, Uniform, SetupOk, Step, Work, SeenBy;
    acts', s' := Go(ws, space, s0, acts, s, script, List(Input(w, act)));
  }

  // What a message's deposit and its pop make of a worker's channel.
  function Deposited(c: State<Message>, x: Message): State<Message>
    requires Fresh(c)
  {
    var j := c.cursor;
    c.(qs := c.qs[j := Queue(c.qs[j].empty[1..], [Item(c.qs[j].empty[0], x)])], sem := 1, accepted := c.accepted + [x])
  }

  lemma DepositIs(c: State<Message>, x: Message) returns (c1: State<Message>, c2: State<Message>)
    requires Fresh(c) && c.producers != []
    ensures Step(Origin, c, Reserve(0, c.cursor)) == Some((c1, Quiet))
    ensures Step(Origin, c1, Publish(0, x)) == Some((c2, Quiet))
    ensures Step(Origin, c2, Signal(0)) == Some((Deposited(c, x), Quiet))
  {
    c1 := Step(Origin, c, Reserve(0, c.cursor)).value.0;
    c2 := Step(Origin, c1, Publish(0, x)).value.0;
    assert c2.producers[0 := Ready] == c.producers;
    var q := c.qs[c.cursor];
    assert [Item(q.empty[0], x)] + q.full == [Item(q.empty[0], x)];
    assert c2.qs == Deposited(c, x).qs;
  }

  lemma PopIs(c: State<Message>, x: Message) returns (c1: State<Message>, c2: State<Message>)
    requires Fresh(c)
    ensures Step(Origin, Deposited(c, x), Wait) == Some((c1, Quiet))
    ensures Step(Origin, c1, Probe) == Some((c2, Popped(c.cursor)))
    ensures HasPopped(c, x, c2)
  {
    c1 := Step(Origin, Deposited(c, x), Wait).value.0;
    c2 := Step(Origin, c1, Probe).value.0;
  }

  ghost predicate HasPopped(c: State<Message>, x: Message, c1: State<Message>) {
    && c1.consumer.Holding? && c1.consumer.msg == x && c1.sem == 0 && c1.producers == c.producers
    && 0 <= c1.consumer.q < |c1.qs| && 0 <= c1.cursor < |c1.qs|
    && forall q :: 0 <= q < |c1.qs| ==> c1.qs[q].full == [] && (q != c1.consumer.q ==> c1.qs[q].empty != [])
  }

  // Worker w has popped message x, and all else is as in s.
  ghost predicate Arrived(s: Wired, w: int, x: Message, s1: Wired) {
    && 0 <= w < |s.p.ins| == |s1.p.ins| && s1 == s.(p := s.p.(ins := s.p.ins[w := s1.p.ins[w]]))
    && HasPopped(s.p.ins[w], x, s1.p.ins[w])
  }

  /** A message comes in for worker w and is popped. */
  lemma Arrive(ws: seq<Setup>, space: nat, z: Sizes, s0: Wired, acts: seq<Act>, s: Wired, script: seq<Send>, w: int,
               x: Message)
      returns (acts': seq<Act>, s': Wired)
    requires LeadsTo(ws, space, s0, acts, s, script) && Rested(ws, z, s) && 0 <= w < |ws| && z.ps[w] > 0
    ensures LeadsTo(ws, space, s0, acts', s', script) && Arrived(s, w, x, s')
  {
    hide LeadsTo, Fresh, Step, HasPopped;
    var c := s.p.ins[w];
    var c1, c2 := DepositIs(c, x);
    var c4, c5 := PopIs(c, x);
    var a1, s1 := GoInput(ws, space, s0, acts, s, script, w, Reserve(0, c.cursor));
    var a2, s2 := GoInput(ws, space, s0, a1, s1, script, w, Publish(0, x));
    var a3, s3 := GoInput(ws, space, s0, a2, s2, script, w, Signal(0));
    var a4, s4 := GoInput(ws, space, s0, a3, s3, script, w, Wait);
    acts', s' := GoInput(ws, space, s0, a4, s4, script, w, Probe);
    assert s'.p.ins == s.p.ins[w := s'.p.ins[w]];
  }

  lemma StageOf(ws: seq<Setup>, space: nat, s: Wired, script: seq<Send>, w: int)
    requires Inv(ws, space, s, script) && 0 <= w < |s.p.out.producers| && s.p.out.producers[w].Ready?
    ensures w < |s.m.stage| && s.m.stage[w] == Bare
  {
    assert Filling(ws, space, s, w);
  }

  // Worker w, with a message popped, reserves an entry and stores the header.
  lemma Claim(ws: seq<Setup>, space: nat, s0: Wired, acts: seq<Act>, s: Wired, script: seq<Send>, w: int)
      returns (acts': seq<Act>, s': Wired)
    requires LeadsTo(ws, space, s0, acts, s, script) && Phase(s.p, w, false, false) && |s.p.out.qs| == 1
    requires s.p.out.qs[0].empty != [] && w < |s.m.left| == |s.m.stage|
    ensures LeadsTo(ws, space, s0, acts', s', script)
    ensures var e := s.p.out.qs[0].empty[0];
            && s'.p.out == s.p.out.(qs := [s.p.out.qs[0].(empty := s.p.out.qs[0].empty[1..])],
                                    producers := s.p.out.producers[w := Reserved(0, e)])
            && s'.p.ins == s.p.ins && s'.p.fell == s.p.fell && s'.m.left == s.m.left[w := e]
            && s'.m.stage == s.m.stage[w := Headed] && s'.m.strayed == s.m.strayed
            && |s'.m.data| == |s.m.data|
  {
    hide Inv, Uniform, SetupOk, OneResult, Step, Work;
    StageOf(ws, space, s, script, w);
    ReserveCan(s.p.out, w);
    ReserveIs(s.p.out, w);
    var a1, s1 := Go(ws, space, s0, acts, s, script, List(ReserveOut(w)));
    acts', s' := Go(ws, space, s0, a1, s1, script, Stores(PutHeader(w)));
  }

  lemma ReserveCan(out: State<Frame>, w: int)
    requires |out.qs| == 1 && out.qs[0].empty != [] && 0 <= w < |out.producers| && out.producers[w].Ready?
    ensures Step(Origin, out, Reserve(w, 0)).Some?
  {
  }

  // The call, and the length.
  lemma Finish(ws: seq<Setup>, space: nat, s0: Wired, acts: seq<Act>, s: Wired, script: seq<Send>, w: int)
      returns (acts': seq<Act>, s': Wired)
    requires LeadsTo(ws, space, s0, acts, s, script) && Phase(s.p, w, false, true)
    requires w < |s.m.left| == |s.m.stage| && s.m.stage[w] == Headed
    ensures LeadsTo(ws, space, s0, acts', s', script)
    ensures var c := s.p.ins[w];
            && s'.p == s.p.(ins := s.p.ins[w := c.(consumer := Ran(c.consumer.q, c.consumer.e),
                                                   served := c.served + [c.consumer.msg])])
            && s'.m.left == s.m.left && s'.m.stage == s.m.stage[w := Complete] && s'.m.strayed == s.m.strayed
            && |s'.m.data| == |s.m.data|
  {
    hide Inv, Uniform, SetupOk, OneResult, Work, O.Result;
    var a1, s1 := Go(ws, space, s0, acts, s, script, List(Call(w)));
    acts', s' := Go(ws, space, s0, a1, s1, script, Stores(PutLength(w)));
  }

  // The push.
  lemma Push(ws: seq<Setup>, space: nat, s0: Wired, acts: seq<Act>, s: Wired, script: seq<Send>, w: int)
      returns (acts': seq<Act>, s': Wired)
    requires LeadsTo(ws, space, s0, acts, s, script) && Phase(s.p, w, true, true) && |s.p.out.qs| == 1
    requires w < |s.m.stage| && s.m.stage[w] == Complete && s.p.out.producers[w].q == 0
    ensures LeadsTo(ws, space, s0, acts', s', script)
    ensures var out, f := s.p.out, Work(ws, space)(w, Last(s.p.ins[w].served));
            s' == s.(p := s.p.(out := out.(qs := [out.qs[0].(full := [Item(out.producers[w].e, f)] + out.qs[0].full)],
                                           producers := out.producers[w := Pushed],
                                           accepted := out.accepted + [f])))
  {
    hide Inv, Uniform, SetupOk, OneResult, Work;
    acts', s' := Go(ws, space, s0, acts, s, script, List(Deliver(w)));
  }

  // The signal.
  lemma Notify(ws: seq<Setup>, space: nat, s0: Wired, acts: seq<Act>, s: Wired, script: seq<Send>, w: int)
      returns (acts': seq<Act>, s': Wired)
    requires LeadsTo(ws, space, s0, acts, s, script) && 0 <= w < |s.p.out.producers|
    requires s.p.out.producers[w].Pushed? && w < |s.m.stage|
    ensures LeadsTo(ws, space, s0, acts', s', script)
    ensures var out := s.p.out;
            && s'.p == s.p.(out := out.(producers := out.producers[w := Ready], sem := out.sem + 1))
            && s'.m == s.m.(stage := s.m.stage[w := Bare])
  {
    hide LeadsTo;
    acts', s' := Go(ws, space, s0, acts, s, script, List(SignalOut(w)));
  }

  // The message's entry back.
  lemma Return(ws: seq<Setup>, space: nat, s0: Wired, acts: seq<Act>, s: Wired, script: seq<Send>, w: int)
      returns (acts': seq<Act>, s': Wired)
    requires LeadsTo(ws, space, s0, acts, s, script) && Phase(s.p, w, true, false)
    requires 0 <= s.p.ins[w].consumer.q < |s.p.ins[w].qs|
    ensures LeadsTo(ws, space, s0, acts', s', script)
    ensures var c := s.p.ins[w];
            s' == s.(p := s.p.(ins := s.p.ins[w := c.(consumer := Waiting,
                                                     qs := c.qs[c.consumer.q := c.qs[c.consumer.q].(
                                                       empty := [c.consumer.e] + c.qs[c.consumer.q].empty)])]))
  {
    hide LeadsTo;
    acts', s' := Go(ws, space, s0, acts, s, script, List(GiveBack(w)));
  }

  // What a trip changes.
  ghost predicate Tripped(ws: seq<Setup>, space: nat, s: Wired, w: int, x: Message, s': Wired) {
    && |s.p.out.qs| == |s'.p.out.qs| == 1 && s.p.out.qs[0].empty != [] && 0 <= w < |s.m.left|
    && var q, e := s.p.out.qs[0], s.p.out.qs[0].empty[0];
       && s'.p.out.qs[0] == Queue(q.empty[1..], [Item(e, Work(ws, space)(w, x))] + q.full)
       && s'.m.left == s.m.left[w := e]
  }

  /** A worker's whole trip while the output has an entry for it. */
  lemma Trip(ws: seq<Setup>, space: nat, z: Sizes, s0: Wired, acts: seq<Act>, s: Wired, script: seq<Send>, w: int,
             x: Message)
      returns (acts': seq<Act>, s': Wired)
    requires LeadsTo(ws, space, s0, acts, s, script) && Rested(ws, z, s) && 0 <= w < |ws| && z.ps[w] > 0
    requires s.p.out.qs[0].empty != []
    ensures LeadsTo(ws, space, s0, acts', s', script) && Rested(ws, z, s') && Tripped(ws, space, s, w, x, s')
  {
    hide Inv, Uniform, SetupOk, OneResult, Work, Steps, LeadsTo;
    var a1, s1 := Arrive(ws, space, z, s0, acts, s, script, w, x);
    var a2, s2 := Claim(ws, space, s0, a1, s1, script, w);
    var a3, s3 := Finish(ws, space, s0, a2, s2, script, w);
    assert Last(s3.p.ins[w].served) == x;
    var a4, s4 := Push(ws, space, s0, a3, s3, script, w);
    var a5, s5 := Notify(ws, space, s0, a4, s4, script, w);
    acts', s' := Return(ws, space, s0, a5, s5, script, w);
    assert s'.p.out.producers == s.p.out.producers;
    assert Fresh(s'.p.ins[w]);
  }

  // The output pops its newest entry.
  lemma PopNewest(ws: seq<Setup>, space: nat, s0: Wired, acts: seq<Act>, s: Wired, script: seq<Send>)
      returns (acts': seq<Act>, s': Wired)
    requires LeadsTo(ws, space, s0, acts, s, script) && |s.p.out.qs| == 1 && s.p.out.cursor == 0
    requires s.p.out.consumer.Waiting? && s.p.out.qs[0].full != [] && s.p.out.sem > 0
    ensures LeadsTo(ws, space, s0, acts', s', script)
    ensures var out := s.p.out;
            s' == s.(p := s.p.(out := out.(qs := [out.qs[0].(full := out.qs[0].full[1..])], sem := out.sem - 1,
                                           consumer := Holding(0, out.qs[0].full[0].entry, out.qs[0].full[0].msg))))
  {
    hide LeadsTo;
    var a1, s1 := Go(ws, space, s0, acts, s, script, List(Output(Wait)));
    acts', s' := Go(ws, space, s0, a1, s1, script, List(Output(Probe)));
  }

  // The output sends the entry it has and takes it home.
  lemma SendHome(ws: seq<Setup>, space: nat, s0: Wired, acts: seq<Act>, s: Wired, script: seq<Send>)
      returns (acts': seq<Act>, s': Wired)
    requires LeadsTo(ws, space, s0, acts, s, script) && |s.p.out.qs| == 1 && s.p.out.consumer.Holding?
    requires s.p.out.consumer.q == 0
    ensures LeadsTo(ws, space, s0, acts', s', script)
    ensures var out := s.p.out;
            s'.p == s.p.(out := out.(qs := [out.qs[0].(empty := [out.consumer.e] + out.qs[0].empty)],
                                     consumer := Waiting, served := out.served + [out.consumer.msg]))
    ensures s'.m.left == s.m.left && s'.m.stage == s.m.stage && s'.m.strayed == s.m.strayed
    ensures |s'.m.data| == |s.m.data|
  {
    hide LeadsTo, Writes;
    var a3, s3 := Go(ws, space, s0, acts, s, script, List(Output(Serve)));
    var a4, s4 := Go(ws, space, s0, a3, s3, script, Stores(Clear));
    acts', s' := Go(ws, space, s0, a4, s4, script, List(Output(Recycle)));
  }

  // The output sends its newest entry and takes it home.
  lemma Emit(ws: seq<Setup>, space: nat, z: Sizes, s0: Wired, acts: seq<Act>, s: Wired, script: seq<Send>)
      returns (acts': seq<Act>, s': Wired)
    requires LeadsTo(ws, space, s0, acts, s, script) && Rested(ws, z, s) && s.p.out.qs[0].full != []
    ensures LeadsTo(ws, space, s0, acts', s', script) && Rested(ws, z, s') && s'.m.left == s.m.left
    ensures var q := s.p.out.qs[0];
            s'.p.out.qs[0] == Queue([q.full[0].entry] + q.empty, q.full[1..])
  {
    hide LeadsTo, Fresh;
    var a1, s1 := PopNewest(ws, space, s0, acts, s, script);
    acts', s' := SendHome(ws, space, s0, a1, s1, script);
  }

  // Every published entry holds f's place.
  ghost predicate AllAre(items: seq<Item<Frame>>, f: Frame) { forall i :: 0 <= i < |items| ==> items[i].msg == f }

  lemma FreeExists(ws: seq<Setup>, space: nat, z: Sizes, s: Wired, script: seq<Send>)
    requires Inv(ws, space, s, script) && Rested(ws, z, s) && s.p.out.qs[0].empty != []
    ensures 0 <= s.p.out.qs[0].empty[0] < z.outlen
  {
    Exists(s, s.p.out.qs[0].empty[0]);
  }

  /** Worker w's trips until the output has no entry left. */
  lemma {:induction false} Fill(ws: seq<Setup>, space: nat, z: Sizes, s0: Wired, acts: seq<Act>, s: Wired,
                                script: seq<Send>, w: int, x: Message, u: int)
      returns (acts': seq<Act>, s': Wired)
    requires LeadsTo(ws, space, s0, acts, s, script) && Rested(ws, z, s) && 0 <= w < |ws| && z.ps[w] > 0
    requires 0 <= u < |ws| && AllAre(s.p.out.qs[0].full, Work(ws, space)(w, x))
    ensures LeadsTo(ws, space, s0, acts', s', script) && Rested(ws, z, s') && s'.p.out.qs[0].empty == []
    ensures AllAre(s'.p.out.qs[0].full, Work(ws, space)(w, x))
    ensures 0 <= s.m.left[u] < z.outlen ==> 0 <= s'.m.left[u] < z.outlen
    decreases |s.p.out.qs[0].empty|
  {
    hide Inv, Uniform, SetupOk, OneResult, Work, Steps, Fresh;
    acts', s' := acts, s;
    if s.p.out.qs[0].empty != [] {
      FreeExists(ws, space, z, s, script);
      var a1, s1 := Trip(ws, space, z, s0, acts, s, script, w, x);
      acts', s' := Fill(ws, space, z, s0, a1, s1, script, w, x, u);
    }
  }

  // Worker w pops a message and finds no entry for its result.
  lemma Miss(ws: seq<Setup>, space: nat, z: Sizes, s0: Wired, acts: seq<Act>, s: Wired, script: seq<Send>, w: int,
             y: Message)
      returns (acts': seq<Act>, s': Wired)
    requires LeadsTo(ws, space, s0, acts, s, script) && Rested(ws, z, s) && 0 <= w < |ws| && z.ps[w] > 0
    requires s.p.out.qs[0].empty == []
    ensures LeadsTo(ws, space, s0, acts', s', script) && s'.p.out == s.p.out && s'.m == s.m && s'.p.fell == {w}
    ensures w < |s'.p.ins| == |ws| && s'.p.ins[w].consumer.Holding? && s'.p.ins[w].consumer.msg == y
  {
    hide Inv, Uniform, SetupOk, OneResult, Work, Steps;
    var a1, s1 := Arrive(ws, space, z, s0, acts, s, script, w, y);
    acts', s' := Go(ws, space, s0, a1, s1, script, List(Fall(w)));
  }

  // Queues have entries, as queue_init asserts.
  ghost predicate HaveEntries(z: Sizes) {
    z.outlen >= 1 && forall w, q :: 0 <= w < |z.qlens| && 0 <= q < |z.qlens[w]| ==> z.qlens[w][q] >= 1
  }

  lemma StartRests(ws: seq<Setup>, space: nat, z: Sizes, s0: Wired)
    requires SetupOk(ws, space) && Starts(ws, space, z, s0) && HaveEntries(z)
    ensures LeadsTo(ws, space, s0, [], s0, s0.m.script) && Rested(ws, z, s0) && s0.p.out.qs[0].full == []
  {
    hide Inv, Uniform;
    StartKeeps(ws, space, z, s0);
  }

  /** A run in which every entry of the output is published with the frame of v's result for x, and then worker w,
      which has had an entry before, finds none for its message y. */
  lemma FullReachable(ws: seq<Setup>, space: nat, z: Sizes, s0: Wired, v: int, x: Message, w: int, y: Message)
      returns (acts: seq<Act>)
    requires SetupOk(ws, space) && Starts(ws, space, z, s0) && HaveEntries(z)
    requires 0 <= v < |ws| && 0 <= w < |ws| && z.ps[v] > 0 && z.ps[w] > 0
    ensures Steps(ws, space, s0, acts).Some?
    ensures var s := Steps(ws, space, s0, acts).value;
            && |s.p.out.qs| == 1 && s.p.out.qs[0].empty == [] && s.p.fell == {w} && !s.m.strayed
            && |s.p.ins| == |ws| == |s.m.left| && s.p.ins[w].consumer.Holding? && s.p.ins[w].consumer.msg == y
            && Inv(ws, space, s, s0.m.script)
            && 0 <= s.m.left[w] < |s.m.data| && Item(s.m.left[w], Work(ws, space)(v, x)) in s.p.out.qs[0].full
  {
    hide Inv, Uniform, SetupOk, OneResult, Work, Steps, Fresh, Starts, HaveEntries;
    var script := s0.m.script;
    StartRests(ws, space, z, s0);
    FreeAtStart(ws, space, z, s0);
    FreeExists(ws, space, z, s0, script);
    var a1, s1 := Trip(ws, space, z, s0, [], s0, script, w, y);
    var a2, s2 := Emit(ws, space, z, s0, a1, s1, script);
    var a3, s3 := Fill(ws, space, z, s0, a2, s2, script, v, x, w);
    var s4;
    acts, s4 := Miss(ws, space, z, s0, a3, s3, script, w, y);
    StepsAreMoves(ws, space, s0, a3);
    AllPublished(ws, space, z, s0, a3, s3, s3.m.left[w]);
  }

  lemma FreeAtStart(ws: seq<Setup>, space: nat, z: Sizes, s0: Wired)
    requires Starts(ws, space, z, s0) && HaveEntries(z)
    ensures |s0.p.out.qs| == 1 && s0.p.out.qs[0].empty != []
  {
  }

  lemma {:induction false} Occurs(items: seq<Item<Frame>>, e: int)
    requires EntryCopies(items, e) > 0
    ensures exists i :: 0 <= i < |items| && items[i].entry == e
  {
    if items[0].entry != e {
      Occurs(items[1..], e);
      var i :| 0 <= i < |items[1..]| && items[1..][i].entry == e;
      assert items[i + 1].entry == e;
    }
  }

  lemma AllPublished(ws: seq<Setup>, space: nat, z: Sizes, s0: Wired, acts: seq<Act>, s: Wired, e: int)
    requires LeadsTo(ws, space, s0, acts, s, s0.m.script) && Starts(ws, space, z, s0) && Rested(ws, z, s)
    requires s.p.out.qs[0].empty == [] && 0 <= e < z.outlen
    ensures exists i :: 0 <= i < |s.p.out.qs[0].full| && s.p.out.qs[0].full[i].entry == e
  {
    hide Uniform, SetupOk, Work, Steps, Fresh, Moves, Filling, Listed, Clean, OnWire, Start;
    StepsAreMoves(ws, space, s0, acts);
    FullIff(Work(ws, space), z.qlens, z.ps, z.outlen, MovesOf(acts));
    AllReady(s.p.out.producers, 0, e);
    assert Places(s.p.out, 0, e) == Channel.At(0 <= e < |s.m.data|);
    Occurs(s.p.out.qs[0].full, e);
  }

  // ---------------------------------------------------------------------------------------
  // When no worker is ever left without an entry, and when it does no harm.

  // In this run no worker finds the output full.
  ghost predicate NobodyFell(ws: seq<Setup>, space: nat, s0: Wired, acts: seq<Act>) {
    Steps(ws, space, s0, acts).Some? ==> Steps(ws, space, s0, acts).value.p.fell == {}
  }

  lemma {:induction false} StepsUniform(ws: seq<Setup>, space: nat, s: Wired, acts: seq<Act>)
    requires Uniform(ws, space, s.p) && Steps(ws, space, s, acts).Some?
    ensures Uniform(ws, space, Steps(ws, space, s, acts).value.p)
    ensures |Steps(ws, space, s, acts).value.p.ins| == |s.p.ins|
    ensures forall w :: Connected(Steps(ws, space, s, acts).value.p, w) ==> Connected(s.p, w)
    decreases |acts|
  {
    hide Uniform, OneResult, Do, Work, SeenBy, Move1;
    if acts != [] {
      var s1 := Step1(ws, space, s, acts[0]).value;
      if acts[0].List? {
        MoveUniform(ws, space, s.p, acts[0].mv);
        MoveConnected(Work(ws, space), s.p, acts[0].mv);
      }
      StepsUniform(ws, space, s1, acts[1..]);
    }
  }

  lemma MoveConnected(work: (int, Message) -> Frame, p: Pipe<Message, Frame>, mv: Move<Message, Frame>)
    requires Move1(work, p, mv).Some?
    ensures |Move1(work, p, mv).value.ins| == |p.ins|
    ensures forall w :: Connected(Move1(work, p, mv).value, w) ==> Connected(p, w)
  {
  }

  /** No run ever leaves a worker without an entry if and only if no worker has a connection, however many entries the
      output has. */
  lemma NeverFullIff(ws: seq<Setup>, space: nat, z: Sizes, s0: Wired)
    requires SetupOk(ws, space) && Starts(ws, space, z, s0) && HaveEntries(z)
    ensures (forall acts :: NobodyFell(ws, space, s0, acts)) <==> forall w :: 0 <= w < |ws| ==> z.ps[w] == 0
  {
    hide Uniform, SetupOk, OneResult, Work, Steps, Inv, HaveEntries;
    StartKeeps(ws, space, z, s0);
    if w :| 0 <= w < |ws| && z.ps[w] != 0 {
      var acts := FullReachable(ws, space, z, s0, w, [], w, []);
      assert !NobodyFell(ws, space, s0, acts);
    } else {
      forall acts
        ensures NobodyFell(ws, space, s0, acts)
      {
        if Steps(ws, space, s0, acts).Some? {
          StepsUniform(ws, space, s0, acts);
          NoneConnected(ws, space, Steps(ws, space, s0, acts).value.p);
        }
      }
    }
  }

  lemma NoneConnected(ws: seq<Setup>, space: nat, p: Pipe<Message, Frame>)
    requires Uniform(ws, space, p) && forall w :: !Connected(p, w)
    ensures p.fell == {}
  {
    hide Connected;
    forall w
      ensures w !in p.fell
    {
      assert w in p.fell ==> Connected(p, w);
    }
  }

  /** What a worker without an entry stores leaves a published frame as it was if and only if its result is that
      frame's body. */
  lemma ScribbleSparesIff(m: Mem, m': Mem, e: int, f: Frame, r: Message)
    requires CarriesFrame(m, e, f) && |r| <= HDRLEN + MAX_BODY
    requires |m'.data| == |m.data| && m'.lens == m.lens && m'.data[e] == Scribbled(m.data[e], r)
    ensures CarriesFrame(m', e, f) <==> r == f.body
  {
    hide EncodeHeader, ToLE;
    if r == f.body {
      ScribbledFrame(m, m', e, f);
    } else if |r| == |f.body| {
      assert m'.data[e][HDRLEN..HDRLEN + |r|] == r;
      assert EncodeFrame(f)[HDRLEN..] == f.body;
    } else {
      O.HeaderParts(f.hdr.wid, f.hdr.qidx, |f.body|);
      assert EncodeFrame(f)[4..HDRLEN] == EncodeHeader(f.hdr)[4..];
      assert m'.data[e][4..HDRLEN] == ToLE(|r|, 4);
      DifferentLengths(|r|, |f.body|);
    }
  }

  lemma DifferentLengths(a: nat, b: nat)
    requires a < O.UINT_SIZE && b < O.UINT_SIZE && a != b
    ensures ToLE(a, 4) != ToLE(b, 4)
  {
    hide ToLE, FromLE;
    assert Pow256(4) == O.UINT_SIZE;
    FromToLE(a, 4);
    FromToLE(b, 4);
  }

  // After this run every frame published is in its entry.
  ghost predicate FramesHold(ws: seq<Setup>, space: nat, s0: Wired, acts: seq<Act>) {
    Steps(ws, space, s0, acts).Some? ==>
      var s := Steps(ws, space, s0, acts).value;
      forall e, f :: Published(s.p.out, e, f) ==> CarriesFrame(s.m, e, f)
  }

  /** From whatever start, published frames stay in their entries in every run if and only if all workers with
      connections give one and the same result, whatever the message and whichever of the two spaces. */
  lemma FramesHoldIff(ws: seq<Setup>, space: nat, z: Sizes, s0: Wired)
    requires SetupOk(ws, space) && Starts(ws, space, z, s0) && HaveEntries(z)
    ensures (forall acts :: FramesHold(ws, space, s0, acts)) <==> OneResult(ws, space, s0.p)
  {
    hide Uniform, SetupOk, OneResult, Work, Steps, Inv, Starts, CarriesFrame, Published;
    if OneResult(ws, space, s0.p) {
      forall acts
        ensures FramesHold(ws, space, s0, acts)
      {
        AlwaysHolds(ws, space, z, s0, acts);
      }
    } else {
      var v, x, w, y := TwoResults(ws, space, z, s0);
      var acts := Overwrites(ws, space, z, s0, v, x, w, y);
      assert !FramesHold(ws, space, s0, acts);
    }
  }

  lemma AlwaysHolds(ws: seq<Setup>, space: nat, z: Sizes, s0: Wired, acts: seq<Act>)
    requires SetupOk(ws, space) && Starts(ws, space, z, s0) && OneResult(ws, space, s0.p)
    ensures FramesHold(ws, space, s0, acts)
  {
    hide SetupOk, OneResult, Steps, CarriesFrame, Published;
    if Steps(ws, space, s0, acts).Some? {
      var s := Steps(ws, space, s0, acts).value;
      forall e, f | Published(s.p.out, e, f)
        ensures CarriesFrame(s.m, e, f)
      {
        EntriesCarryFrames(ws, space, z, s0, acts, e, f);
      }
    }
  }

  lemma TwoResults(ws: seq<Setup>, space: nat, z: Sizes, s0: Wired) returns (v: int, x: Message, w: int, y: Message)
    requires Starts(ws, space, z, s0) && !OneResult(ws, space, s0.p)
    ensures 0 <= v < |ws| && 0 <= w < |ws| && z.ps[v] > 0 && z.ps[w] > 0 && !SameResult(ws, space, v, x, w, y)
  {
    hide SameResult;
    v, w, x, y :|
      Connected(s0.p, v) && Connected(s0.p, w) && v < |ws| && w < |ws| && !SameResult(ws, space, v, x, w, y);
  }

  /** Two different results, and a run in which one is stored over the other after that is published. */
  lemma Overwrites(ws: seq<Setup>, space: nat, z: Sizes, s0: Wired, v: int, x: Message, w: int, y: Message)
      returns (acts: seq<Act>)
    requires SetupOk(ws, space) && Starts(ws, space, z, s0) && HaveEntries(z)
    requires 0 <= v < |ws| && 0 <= w < |ws| && z.ps[v] > 0 && z.ps[w] > 0 && !SameResult(ws, space, v, x, w, y)
    ensures Steps(ws, space, s0, acts).Some? && !FramesHold(ws, space, s0, acts)
  {
    hide Steps, Starts, HaveEntries, CarriesFrame, O.Result, SetupOk, Inv, Work;
    var before := FullReachable(ws, space, z, s0, v, x, w, y);
    var s := Steps(ws, space, s0, before).value;
    acts := before + [Stores(Scribble(w))];
    var s' := Overwritten(ws, space, s, s0.m.script, v, x, w, y);
    StepsAppend(ws, space, s0, before, Stores(Scribble(w)));
    assert Published(s'.p.out, s.m.left[w], Work(ws, space)(v, x));
  }

  lemma Overwritten(ws: seq<Setup>, space: nat, s: Wired, script: seq<Send>, v: int, x: Message, w: int, y: Message)
      returns (s': Wired)
    requires SetupOk(ws, space) && Inv(ws, space, s, script) && 0 <= v < |ws| && 0 <= w < |ws|
    requires s.p.fell == {w} && |s.p.ins| == |ws| == |s.m.left| && s.p.ins[w].consumer.Holding?
    requires s.p.ins[w].consumer.msg == y && !SameResult(ws, space, v, x, w, y)
    requires |s.p.out.qs| == 1 && Item(s.m.left[w], Work(ws, space)(v, x)) in s.p.out.qs[0].full
    ensures Step1(ws, space, s, Stores(Scribble(w))) == Some(s') && s'.p == s.p
    ensures !CarriesFrame(s'.m, s.m.left[w], Work(ws, space)(v, x))
  {
    hide CarriesFrame, O.Result, Filling, Owned, Clean, OnWire, Scribbled;
    var e, f, r := s.m.left[w], Work(ws, space)(v, x), ResultOf(ws, HDRLEN + space, w, y);
    var i :| 0 <= i < |s.p.out.qs[0].full| && s.p.out.qs[0].full[i] == Item(e, f);
    assert CarriesFrame(s.m, s.p.out.qs[0].full[i].entry, s.p.out.qs[0].full[i].msg);
    assert O.KeepsTo(ws[w].func, y, space) && O.KeepsTo(ws[w].func, y, HDRLEN + space);
    InRange(s.m, e, f);
    s' := Step1(ws, space, s, Stores(Scribble(w))).value;
    ScribbleSparesIff(s.m, s'.m, e, f, r);
  }

  lemma InRange(m: Mem, e: int, f: Frame)
    requires CarriesFrame(m, e, f)
    ensures 0 <= e < |m.data|
  {
  }
}
