/** Where messages come from: what is saved, streamed, published or acknowledged is what some caller asked to send. */
module DeliveryOrigins {
  import opened Domain
  import opened Outbox
  import opened Delivery
  import opened DeliveryInvariants
  import opened SendMessage

  predicate Begins(a: Action, i: nat, cmd: Command) {
    a.Send? && a.i == i && a.send.Begin? && a.send.cmd == cmd
  }

  /** Sender `i` has begun with this command. */
  ghost predicate Begun(acts: seq<Action>, i: nat, cmd: Command) {
    exists k :: 0 <= k < |acts| && Begins(acts[k], i, cmd)
  }

  /** At step `j` of the run from `s` sender `i` was given the message's id, and it is dated by the clock of that moment. */
  ghost predicate Named(s: State, acts: seq<Action>, i: nat, j: int, m: Message)
    requires Runs(s, acts)
  {
    && 0 <= j < |acts| && acts[j].Send? && acts[j].i == i && acts[j].send.RoomCall? && acts[j].send.id == m.id
    && Runs(s, acts[..j]) && Exec(s, acts[..j]).now == m.createdAt
  }

  /** The message is made of a command some sender began with, an id it was given afterwards, and the time of that. */
  ghost predicate Made(s: State, acts: seq<Action>, i: nat, m: Message)
    requires Runs(s, acts)
  {
    exists k, j, cmd :: 0 <= k < j && Named(s, acts, i, j, m) && Begins(acts[k], i, cmd)
      && m.clientMsgId == cmd.clientMsgId && m.roomId == cmd.roomId && m.senderId == cmd.senderId
      && m.content == cmd.content && m.replyTo == cmd.replyTo
  }

  ghost predicate SenderMade(s: State, acts: seq<Action>, i: nat, pc: Sender)
    requires Runs(s, acts)
  {
    match pc
    case Idle => true
    case CheckExists(cmd) => Begun(acts, i, cmd)
    case LoadRoom(cmd) => Begun(acts, i, cmd)
    case CheckReply(m) => Made(s, acts, i, m)
    case Saving(m) => Made(s, acts, i, m)
    case _ => true
  }

  ghost predicate AllMade(s: State, acts: seq<Action>)
    requires Runs(s, acts)
  {
    var t := Exec(s, acts);
    && (forall i :: i in t.senders ==> SenderMade(s, acts, i, t.senders[i]))
    && (forall m :: m in t.db.saved ==> exists i :: Made(s, acts, i, m))
  }

  lemma MadeLonger(s: State, acts: seq<Action>, a: Action, i: nat, m: Message)
    requires Runs(s, acts) && Runs(s, acts + [a]) && Made(s, acts, i, m)
    ensures Made(s, acts + [a], i, m)
  {
    var k, j, cmd :| 0 <= k < j && Named(s, acts, i, j, m) && Begins(acts[k], i, cmd)
      && m.clientMsgId == cmd.clientMsgId && m.roomId == cmd.roomId && m.senderId == cmd.senderId
      && m.content == cmd.content && m.replyTo == cmd.replyTo;
    hide Exec, Runs;
    assert (acts + [a])[..j] == acts[..j];
    assert Named(s, acts + [a], i, j, m) && Begins((acts + [a])[k], i, cmd);
  }

  lemma SenderMadeLonger(s: State, acts: seq<Action>, a: Action, i: nat, pc: Sender)
    requires Runs(s, acts) && Runs(s, acts + [a]) && SenderMade(s, acts, i, pc)
    ensures SenderMade(s, acts + [a], i, pc)
  {
    hide Runs, Exec, Made;
    match pc
    case CheckExists(cmd) => BegunLonger(acts, a, i, cmd);
    case LoadRoom(cmd) => BegunLonger(acts, a, i, cmd);
    case CheckReply(m) => MadeLonger(s, acts, a, i, m);
    case Saving(m) => MadeLonger(s, acts, a, i, m);
    case _ =>
  }

  lemma BegunLonger(acts: seq<Action>, a: Action, i: nat, cmd: Command)
    requires Begun(acts, i, cmd)
    ensures Begun(acts + [a], i, cmd)
  {
    var k :| 0 <= k < |acts| && Begins(acts[k], i, cmd);
    assert Begins((acts + [a])[k], i, cmd);
  }

  /** The step of a sender that is given its id. */
  lemma NowMade(s: State, acts: seq<Action>, i: nat, cmd: Command, view: Option<set<string>>, id: string)
    requires Runs(s, acts) && Begun(acts, i, cmd)
    requires Runs(s, acts + [Send(i, RoomCall(view, id))])
    ensures Made(s, acts + [Send(i, RoomCall(view, id))], i,
                 Message(id, cmd.clientMsgId, cmd.roomId, cmd.senderId, cmd.content, cmd.replyTo, Exec(s, acts).now))
  {
    var more, j := acts + [Send(i, RoomCall(view, id))], |acts|;
    var m := Message(id, cmd.clientMsgId, cmd.roomId, cmd.senderId, cmd.content, cmd.replyTo, Exec(s, acts).now);
    assert more[..j] == acts;
    hide Runs, Exec;
    var k :| 0 <= k < |acts| && Begins(acts[k], i, cmd);
    assert Named(s, more, i, j, m) && Begins(more[k], i, cmd);
  }

  /** What a sender is about to send or save it had before, or has just begun with or been given. */
  lemma HeldBefore(outbox: bool, now: int, db: Db, pc: Sender, step: SendStep)
    requires SendReady(pc, step)
    ensures match SendNext(outbox, now, db, pc, step).1
      case CheckExists(cmd) => step.Begin? && step.cmd == cmd
      case LoadRoom(cmd) => pc == CheckExists(cmd)
      case CheckReply(m) => pc.LoadRoom? && step.RoomCall? && m == MakeMessage(pc.cmd, step.id, now)
      case Saving(m) => pc == CheckReply(m) || (pc.LoadRoom? && step.RoomCall? && m == MakeMessage(pc.cmd, step.id, now))
      case _ => true
  {
  }

  /** What the sender holds after its step. */
  lemma SendKeepsMade(s: State, acts: seq<Action>, i: nat, step: SendStep)
    requires Runs(s, acts) && Runs(s, acts + [Send(i, step)])
    requires var t := Exec(s, acts); Enabled(t, Send(i, step)) && SenderMade(s, acts, i, SenderOf(t, i))
    ensures var t := Exec(s, acts);
      SenderMade(s, acts + [Send(i, step)], i, SendNext(t.outbox, t.now, t.db, SenderOf(t, i), step).1)
  {
    var t, a := Exec(s, acts), Send(i, step);
    var pc := SenderOf(t, i);
    HeldBefore(t.outbox, t.now, t.db, pc, step);
    SenderMadeLonger(s, acts, a, i, pc);
    if step.Begin? {
      assert Begins((acts + [a])[|acts|], i, step.cmd);
    } else if step.RoomCall? && pc.LoadRoom? {
      NowMade(s, acts, i, pc.cmd, step.view, step.id);
    }
    hide Runs, Exec, Made, Begun, SendNext, SendReady;
  }

  lemma StepKeepsMade(s: State, acts: seq<Action>, a: Action)
    requires Runs(s, acts) && AllMade(s, acts) && Enabled(Exec(s, acts), a)
    ensures Runs(s, acts + [a]) && AllMade(s, acts + [a])
  {
    OneMore(s, acts, a);
    var t, more := Exec(s, acts), acts + [a];
    var t' := Apply(t, a);
    if a.Send? { SendKeepsMade(s, acts, a.i, a.send); } else { OthersKeepSaved(t, a); }
    forall i | i in t'.senders ensures SenderMade(s, more, i, t'.senders[i]) {
      if i in t.senders { SenderMadeLonger(s, acts, a, i, t.senders[i]); }
    }
    forall m | m in t'.db.saved ensures exists i :: Made(s, more, i, m) {
      if m in t.db.saved {
        var i :| Made(s, acts, i, m);
        MadeLonger(s, acts, a, i, m);
      } else {
        SavedByStep(t, a, m);
        MadeLonger(s, acts, a, a.i, m);
      }
    }
  }

  /** Only a sender about to save a message saves it. */
  lemma SavedByStep(t: State, a: Action, m: Message)
    requires Enabled(t, a) && m in Apply(t, a).db.saved && m !in t.db.saved
    ensures a.Send? && a.i in t.senders && t.senders[a.i] == Saving(m)
  {
    if !a.Send? { OthersKeepSaved(t, a); }
  }

  lemma {:induction false} RunMakesAll(s: State, acts: seq<Action>)
    requires Runs(s, acts) && s.senders == map[] && s.db.saved == []
    ensures AllMade(s, acts)
    decreases |acts|
  {
    if acts != [] {
      var before, a := acts[..|acts| - 1], acts[|acts| - 1];
      assert acts == before + [a];
      RunBegins(s, before, a);
      RunMakesAll(s, before);
      StepKeepsMade(s, before, a);
    }
  }

  lemma {:induction false} RunBegins(s: State, acts: seq<Action>, a: Action)
    requires Runs(s, acts + [a])
    ensures Runs(s, acts) && Enabled(Exec(s, acts), a)
    decreases |acts|
  {
    if acts == [] {
      assert acts + [a] == [a];
    } else {
      assert (acts + [a])[1..] == acts[1..] + [a];
      hide Enabled, Apply;
      RunBegins(Apply(s, acts[0]), acts[1..], a);
    }
  }

  /** In every run from an empty system each saved message has the sender, room, content, client id and reply of a command
      some caller began with, an id handed out to that caller afterwards, and the time of the clock then. */
  lemma SavedAsAsked(outbox: bool, limit: nat, now: int, acts: seq<Action>, m: Message)
    returns (i: nat, k: nat, j: nat, cmd: Command)
    requires Runs(Initial(outbox, limit, now), acts) && m in Exec(Initial(outbox, limit, now), acts).db.saved
    ensures k < j < |acts| && acts[k].Send? && acts[k].i == i && acts[k].send.Begin? && acts[k].send.cmd == cmd
    ensures m.clientMsgId == cmd.clientMsgId && m.roomId == cmd.roomId && m.senderId == cmd.senderId
    ensures m.content == cmd.content && m.replyTo == cmd.replyTo
    ensures acts[j].Send? && acts[j].i == i && acts[j].send.RoomCall? && acts[j].send.id == m.id
    ensures Runs(Initial(outbox, limit, now), acts[..j]) && Exec(Initial(outbox, limit, now), acts[..j]).now == m.createdAt
  {
    var s := Initial(outbox, limit, now);
    RunMakesAll(s, acts);
    hide Runs, Exec, Initial;
    i :| Made(s, acts, i, m);
    var b, n: int;
    b, n, cmd :| 0 <= b < n && Named(s, acts, i, n, m) && Begins(acts[b], i, cmd)
      && m.clientMsgId == cmd.clientMsgId && m.roomId == cmd.roomId && m.senderId == cmd.senderId
      && m.content == cmd.content && m.replyTo == cmd.replyTo;
    k, j := b, n;
  }
}
