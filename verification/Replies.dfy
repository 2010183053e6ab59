/** What the host gets for what it writes: which requests are answered, with which report, and what an accepted answer
    changes. */
module Replies {
  import opened Types
  import opened Command
  import opened Machine
  import opened Output
  import opened Protocol
  import opened Runs
  import opened Session
  import opened Transport
  import opened Wire

  /** A flash read of at most 29 bytes that lies within the first 512 KiB, in unbounded arithmetic. */
  predicate ReadFits(payload: seq<Byte>) {
    && 5 <= |payload| && payload[4] as int <= 29
    && SpiAddress(payload) as int + payload[4] as int <= 0x80000
  }

  /** The requests that have an answer: those without an argument, those whose argument is in its range, and the flash
      reads that fit. */
  predicate Answerable(id: Byte, payload: seq<Byte>) {
    || id in {0x02, 0x04, 0x08, 0x21}
    || (id == 0x10 && ReadFits(payload))
    || (id in {0x03, 0x30} && payload != [])
    || (id == 0x22 && payload != [] && payload[0] <= 2)
    || (id == 0x40 && payload != [] && payload[0] <= 5)
    || (id == 0x48 && payload != [] && payload[0] <= 1)
  }

  /** The session after an accepted answer: one setting is the requested one, every other stays. */
  predicate Changes(id: Byte, payload: seq<Byte>, s: ProtocolSession, s': ProtocolSession) {
    && s'.reportMode == (if id == 0x03 && payload != [] then Some(payload[0]) else s.reportMode)
    && s'.playerLights == (if id == 0x30 && payload != [] then Some(payload[0]) else s.playerLights)
    && s'.vibration == (if id == 0x48 && payload != [] then payload[0] == 1 else s.vibration)
    && (if id == 0x40 && payload != [] && payload[0] <= 5
        then s'.imuMode == ImuModeFromWire(payload[0]) && s'.imu == AtRest
        else s'.imuMode == s.imuMode && s'.imu == s.imu)
  }

  lemma ReadsFitExactlyWhen(payload: seq<Byte>)
    ensures CheckSpiRead(payload).None? <==> ReadFits(payload)
  {
    hide SpiAddress;
    if 5 <= |payload| {
      SumWraps(SpiAddress(payload), payload[4]);
    }
  }

  /** The 32-bit sum that wrapped is smaller than its first part. */
  lemma SumWraps(address: bv32, size: Byte)
    ensures size <= 0x1D <==> size as int <= 29
    ensures size <= 0x1D ==>
              var end := address + (size as bv32);
              (end < address || 0x80000 < end) <==> 0x80000 < address as int + size as int
  {
  }

  lemma AnsweredExactlyWhen(id: Byte, payload: seq<Byte>, state: InputState, timer: Timer, session: ProtocolSession)
    ensures var prepared := PrepareSubcommand(id, payload, state, timer, session);
            && (prepared.Ok? <==> Answerable(id, payload))
            && (prepared.Ok? ==>
                  prepared.value.report == ReplyReport(timer, state, id, payload)
                  && Changes(id, payload, session, prepared.value.session))
  {
    hide CheckSpiRead, ReadFits;
    ReadsFitExactlyWhen(payload);
  }

  predicate IsRequest(raw: seq<Byte>) {
    11 <= |raw| && raw[0] == 0x01
  }

  /** The host has set the standard full report mode and at least one player light. */
  predicate HostIsReady(s: ProtocolSession) {
    s.reportMode == Some(0x30) && s.playerLights.Some? && s.playerLights.value != 0
  }

  /** The handling of one host write. A request is remembered and shown even if it has no answer. Its answer repeats its
      id and payload, takes the sender's next timer, and carries the committed input once the host is ready, neutral
      input before that; only an accepted answer changes the session. Everything else sends nothing. */
  ghost predicate Answers(c: Core, raw: seq<Byte>, outcome: SendOutcome, o: Outcome) {
    var wire, wire', last := c.out.wire, o.core.out.wire, |c.out.wire|;
    var session, session' := c.out.sender.session, o.core.out.sender.session;
    && o.core.input == c.input
    && if !IsRequest(raw) then wire' == wire && session' == session && o.core.observed == c.observed && o.fault.None?
       else
         var id, payload := raw[10], raw[11..];
         && o.core.observed.ids == c.observed.ids + iset{id} && o.core.observed.last == Some(id)
         && o.core.out.status.lastSubcommand == Some(id)
         && if !Answerable(id, payload) then wire' == wire && session' == session && o.fault.None?
            else
              && |wire'| == last + 1 && wire'[..last] == wire
              && wire'[last] == Sent(ReplyReport(c.out.sender.timer, if HostIsReady(session) then c.input else NEUTRAL,
                                                 id, payload), outcome)
              && (if outcome.Accepted? then Changes(id, payload, session, session') else session' == session)
              && o.fault == if outcome.Refused? && outcome.kind != SendRejected then Some(TransportFailed(outcome.kind))
                            else None
  }

  lemma OutputIsAnswered(c: Core, raw: seq<Byte>, outcome: SendOutcome)
    ensures var (c', completion) := ReplyToOutput(c, raw, outcome);
            Answers(c, raw, outcome,
                    Outcome(c', FRESH, if completion.Err? then OperationFault(OutputFailed(completion.error)) else None))
  {
    hide PrepareSubcommand, Answerable, Changes;
    if IsRequest(raw) {
      var id, payload, sender := raw[10], raw[11..], c.out.sender;
      AnsweredExactlyWhen(id, payload, if sender.session.ProtocolReady() then c.input else NEUTRAL, sender.timer,
                          sender.session);
    }
  }

  lemma RecordingKeepsReply(c: Core, p: Progress, completion: OutputCompletion, now: Duration)
    ensures var o := RecordOutput(c, p, completion, now);
            && o.core.out == c.out && o.core.observed == c.observed && o.core.input == c.input
            && o.fault == if completion.Err? then OperationFault(OutputFailed(completion.error)) else None
  {
  }

  lemma HostWritesAreAnswered(c: Core, p: Progress, event: SessionEvent, now: Duration, outcome: SendOutcome)
    requires IsCurrent(c, event) && event.event.HidOutput?
    ensures Answers(c, event.event.payload, outcome, HandleEvent(c, p, event, now, outcome))
  {
    hide ReplyToOutput, RecordOutput, Answerable, Changes;
    OutputIsAnswered(c, event.event.payload, outcome);
    var (c', completion) := ReplyToOutput(c, event.event.payload, outcome);
    RecordingKeepsReply(c', p, completion, now);
  }

  /** Over every run of a new worker: the same of every host write of the current session. */
  lemma EveryHostWriteIsAnswered(r: Run, i: nat)
    requires FreshRun(r) && i < |r.actions| && r.actions[i].Event?
    requires r.worlds[i].phase.Handling? && r.worlds[i].phase.events != [] && r.worlds[i].phase.events[0].Some?
    requires IsCurrent(r.worlds[i].core, r.worlds[i].phase.events[0].value)
    requires r.worlds[i].phase.events[0].value.event.HidOutput?
    ensures var w, a, w' := r.worlds[i], r.actions[i], r.worlds[i + 1];
            Answers(w.core, w.phase.events[0].value.event.payload, a.outcome,
                    Outcome(w'.core, w'.progress, w'.fault))
  {
    hide Answers;
    var w, a := r.worlds[i], r.actions[i];
    assert Leads(w, a, r.worlds[i + 1]);
    EventLands(w, a);
    HostWritesAreAnswered(w.core, w.progress, w.phase.events[0].value, a.now, a.outcome);
  }

  lemma EventLands(w: World, a: Action)
    requires Enabled(w, a) && a.Event? && w.phase.events[0].Some?
    ensures var w' := Perform(w, a);
            Outcome(w'.core, w'.progress, w'.fault)
            == HandleEvent(w.core, w.progress, w.phase.events[0].value, a.now, a.outcome)
  {
    hide HandleEvent;
  }
}
