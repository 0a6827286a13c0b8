/** What the conversation promises: per-step transitions, one reply per call,
    idempotent reprompts, `schedule` only from `confirm`, terminal answers
    clear the session, and every stored session carries exactly the fields
    collected so far. */
module WebhookProperties {
  import opened Optional
  import opened Formats
  import opened Services
  import opened Webhook

  // ---------------------------------------------------------------------------
  // Shape of every turn
  // ---------------------------------------------------------------------------

  /** Every call sends exactly one text, to the caller's phone, after the ones
      already sent; no session but the caller's is touched. */
  lemma TurnSendsOneReply(w: World, o: Oracle, phone: string, text: string)
    ensures var w' := Turn(w, o, phone, text);
      |w'.sent| == |w.sent| + 1 && w'.sent[..|w.sent|] == w.sent && w'.sent[|w.sent|].to == phone
    ensures var w' := Turn(w, o, phone, text);
      forall p :: p != phone ==> (p in w'.sessions <==> p in w.sessions)
                                 && (p in w.sessions ==> w'.sessions[p] == w.sessions[p])
  {
    var w' := Turn(w, o, phone, text);
    assert w'.sent[..|w.sent|] == w.sent;
  }

  /** `schedule` is called at most once per turn, exactly when the session is
      at `confirm` and the lower-cased answer is affirmative, with the stored
      fields and the caller's phone; otherwise the appointments are untouched. */
  lemma ScheduleOnlyOnYes(w: World, o: Oracle, phone: string, text: string)
    ensures var w' := Turn(w, o, phone, text);
      |w'.calls| <= |w.calls| + 1 && w'.calls[..|w.calls|] == w.calls
    ensures var w' := Turn(w, o, phone, text);
      |w'.calls| == |w.calls| + 1 <==>
        SessionOf(w, phone).Confirm? && IsAffirmative(ToLower(Normalize(Some(text))))
    ensures var w' := Turn(w, o, phone, text);
      |w'.calls| == |w.calls| + 1 ==>
        match SessionOf(w, phone)
        case Confirm(n, d, t, r) => w'.calls[|w.calls|] == Booking(n, phone, d, t, r)
        case _ => false
    ensures var w' := Turn(w, o, phone, text);
      |w'.calls| == |w.calls| ==> w'.appointments == w.appointments
  {
    var w' := Turn(w, o, phone, text);
    assert w'.calls[..|w.calls|] == w.calls;
  }

  // ---------------------------------------------------------------------------
  // The steps one by one
  // ---------------------------------------------------------------------------

  /** An absent session, or one at `init`, becomes `ask_name` with a greeting,
      whatever the text. */
  lemma FirstContact(w: World, o: Oracle, phone: string, text: string)
    requires SessionOf(w, phone) == Init
    ensures Turn(w, o, phone, text) ==
      w.(sessions := w.sessions[phone := AskName], sent := w.sent + [Outgoing(phone, Greeting)])
  {
  }

  /** `ask_name` becomes `ask_date` with the trimmed text as name, or
      "Paciente" when it is empty. */
  lemma NameStep(w: World, o: Oracle, phone: string, text: string)
    requires SessionOf(w, phone) == AskName
    ensures var incoming := Trim(text);
      var name := if incoming == "" then "Paciente" else incoming;
      Turn(w, o, phone, text) ==
        w.(sessions := w.sessions[phone := AskDate(name)], sent := w.sent + [Outgoing(phone, AskDatePrompt(name))])
  {
  }

  /** `ask_date` moves on exactly for a well-formed business day with a free
      slot, storing the name unchanged and the date, and lists at most the
      first 8 slots in their order; otherwise the session stays as it was. */
  lemma DateStep(w: World, o: Oracle, phone: string, name: string, text: string)
    requires SessionOf(w, phone) == AskDate(name)
    ensures var incoming := Trim(text);
      var avail := o.availability(w.appointments, incoming);
      var w' := Turn(w, o, phone, text);
      w'.appointments == w.appointments && w'.calls == w.calls
      && if IsDateStr(incoming) && avail.isBusinessDay && |avail.slots| > 0 then
        w'.sessions == w.sessions[phone := AskTime(name, incoming)]
        && w'.sent[|w.sent|].reply.SlotList? && w'.sent[|w.sent|].reply.date == incoming
        && var shown := w'.sent[|w.sent|].reply.shown;
           |shown| == (if |avail.slots| < 8 then |avail.slots| else 8) && shown == avail.slots[..|shown|]
      else
        w'.sessions == w.sessions
        && w'.sent[|w.sent|].reply == (if !IsDateStr(incoming) then DateFormatError
                                       else if !avail.isBusinessDay then NotBusinessDay else NoSlots)
  {
  }

  /** `ask_time` moves on exactly for a well-formed time that is in the full,
      freshly computed slot list of the stored date, not only among the 8
      listed before; otherwise the session stays as it was. */
  lemma TimeStep(w: World, o: Oracle, phone: string, name: string, date: string, text: string)
    requires SessionOf(w, phone) == AskTime(name, date)
    ensures var incoming := Trim(text);
      var w' := Turn(w, o, phone, text);
      w'.appointments == w.appointments && w'.calls == w.calls
      && if IsTimeStr(incoming) && incoming in o.availability(w.appointments, date).slots then
        w'.sessions == w.sessions[phone := AskReason(name, date, incoming)]
        && w'.sent[|w.sent|].reply == ReasonPrompt
      else
        w'.sessions == w.sessions
        && w'.sent[|w.sent|].reply == (if !IsTimeStr(incoming) then TimeFormatError else TimeUnavailable)
  {
  }

  /** `ask_reason` becomes `confirm` with the trimmed text as reason, or
      "Consulta" when it is empty, carrying name, date and time over. */
  lemma ReasonStep(w: World, o: Oracle, phone: string, name: string, date: string, time: string, text: string)
    requires SessionOf(w, phone) == AskReason(name, date, time)
    ensures var incoming := Trim(text);
      var reason := if incoming == "" then "Consulta" else incoming;
      Turn(w, o, phone, text) ==
        w.(sessions := w.sessions[phone := Confirm(name, date, time, reason)],
           sent := w.sent + [Outgoing(phone, ConfirmPrompt(date, time, reason))])
  {
  }

  /** `confirm`: "sim", "s" or "confirmo" in any letter case books the stored
      fields once and clears the session whether the booking succeeds or not;
      "nao", "n?o" or "n" clears it without booking; anything else keeps it. */
  lemma AnswerStep(w: World, o: Oracle, phone: string, name: string, date: string, time: string,
                   reason: string, text: string)
    requires SessionOf(w, phone) == Confirm(name, date, time, reason)
    ensures var ans := ToLower(Trim(text));
      var w' := Turn(w, o, phone, text);
      var b := Booking(name, phone, date, time, reason);
      if IsAffirmative(ans) then
        w'.sessions == w.sessions - {phone} && w'.calls == w.calls + [b]
        && var (res, appts) := o.book(w.appointments, b);
           w'.appointments == appts
           && w'.sent[|w.sent|].reply == (if res.Scheduled? then Confirmed(res.humanTime, name)
                                           else BookingFailed(res.error))
      else if IsNegative(ans) then
        w' == w.(sessions := w.sessions - {phone}, sent := w.sent + [Outgoing(phone, Cancelled)])
      else
        w' == w.(sent := w.sent + [Outgoing(phone, AnswerSimNao)])
  {
  }

  /** An answer spelt with any mix of capitals and small letters counts as
      the accepted token it lower-cases to: "SIM", "Sim" and "sIm" are all
      affirmative, "NAO" and "N" negative. */
  lemma AnswerInAnyLetterCase(s: string, t: string)
    requires IsAffirmative(t) || IsNegative(t)
    requires |s| == |t|
    requires forall i :: 0 <= i < |s| ==>
      s[i] == t[i] || ('a' <= t[i] <= 'z' && s[i] as int == t[i] as int - 32)
    ensures IsAffirmative(ToLower(s)) <==> IsAffirmative(t)
    ensures IsNegative(ToLower(s)) <==> IsNegative(t)
  {
    assert ToLower(s) == t;
  }

  /** A terminal answer leaves no session for the phone, so the next message
      starts over with the greeting. */
  lemma TerminalAnswerClears(w: World, o: Oracle, phone: string, text: string)
    requires SessionOf(w, phone).Confirm?
    requires var ans := ToLower(Trim(text)); IsAffirmative(ans) || IsNegative(ans)
    ensures phone !in Turn(w, o, phone, text).sessions
    ensures SessionOf(Turn(w, o, phone, text), phone) == Init
  {
  }

  // ---------------------------------------------------------------------------
  // Reprompts
  // ---------------------------------------------------------------------------

  /** The inputs a step refuses, stated apart from `Turn`. */
  predicate Refused(s: Session, incoming: string, o: Oracle, appts: seq<Appointment>) {
    match s
    case AskDate(_) =>
      var avail := o.availability(appts, incoming);
      !IsDateStr(incoming) || !avail.isBusinessDay || |avail.slots| == 0
    case AskTime(_, date) =>
      !IsTimeStr(incoming) || incoming !in o.availability(appts, date).slots
    case Confirm(_, _, _, _) =>
      !IsAffirmative(ToLower(incoming)) && !IsNegative(ToLower(incoming))
    case _ => false
  }

  /** A turn leaves the stored sessions as they were exactly when the step
      refuses the input; it then changes nothing but the outbox. */
  lemma UnchangedIffRefused(w: World, o: Oracle, phone: string, text: string)
    ensures Turn(w, o, phone, text).sessions == w.sessions <==>
            phone in w.sessions && Refused(w.sessions[phone], Trim(text), o, w.appointments)
    ensures Turn(w, o, phone, text).sessions == w.sessions ==>
            Turn(w, o, phone, text) == w.(sent := Turn(w, o, phone, text).sent)
  {
    var w' := Turn(w, o, phone, text);
    if phone !in w.sessions {
      assert phone in w'.sessions;
    } else if !Refused(w.sessions[phone], Trim(text), o, w.appointments) {
      match w.sessions[phone]
      case Init => assert w'.sessions[phone] != Init;
      case AskName => assert w'.sessions[phone] != AskName;
      case AskDate(_) => assert w'.sessions[phone].AskTime?;
      case AskTime(_, _) => assert w'.sessions[phone].AskReason?;
      case AskReason(_, _, _) => assert w'.sessions[phone].Confirm?;
      case Confirm(_, _, _, _) => assert phone !in w'.sessions;
    }
  }

  /** The same text sent `n` times in a row from one phone. */
  function Repeat(w: World, o: Oracle, phone: string, text: string, n: nat): World {
    if n == 0 then w else Turn(Repeat(w, o, phone, text, n - 1), o, phone, text)
  }

  /** Reprompting is idempotent: a refused input sent any number of times
      keeps the sessions, appointments and `schedule` calls as they were and
      sends the same reprompt each time. */
  lemma {:induction false} RepromptIdempotent(w: World, o: Oracle, phone: string, text: string, n: nat)
    requires phone in w.sessions && Refused(w.sessions[phone], Trim(text), o, w.appointments)
    ensures var w' := Repeat(w, o, phone, text, n);
      w'.sessions == w.sessions && w'.appointments == w.appointments && w'.calls == w.calls
      && |w'.sent| == |w.sent| + n && w'.sent[..|w.sent|] == w.sent
      && forall k :: |w.sent| <= k < |w'.sent| ==> w'.sent[k] == Turn(w, o, phone, text).sent[|w.sent|]
  {
    UnchangedIffRefused(w, o, phone, text);
    if n > 0 {
      RepromptIdempotent(w, o, phone, text, n - 1);
      var v := Repeat(w, o, phone, text, n - 1);
      UnchangedIffRefused(v, o, phone, text);
      // The reprompt depends only on the sessions and appointments, which v shares with w.
      assert Turn(v, o, phone, text).sent[|v.sent|] == Turn(w, o, phone, text).sent[|w.sent|] by {
        assert v == w.(sent := v.sent);
      }
      TurnSendsOneReply(v, o, phone, text);
      var w' := Repeat(w, o, phone, text, n);
      assert w'.sent[..|v.sent|] == v.sent;
      assert w'.sent[..|w.sent|] == v.sent[..|w.sent|];
    }
  }

  // ---------------------------------------------------------------------------
  // Stored sessions carry exactly the fields collected so far
  // ---------------------------------------------------------------------------

  /** A free-text field as the conversation stores it: non-empty and trimmed. */
  predicate IsFieldText(s: string) {
    s != "" && Trim(s) == s
  }

  /** The fields a session holds are those its step has collected, each in the
      form the step that collected it accepts. */
  predicate WellFormed(s: Session) {
    match s
    case Init => true
    case AskName => true
    case AskDate(n) => IsFieldText(n)
    case AskTime(n, d) => IsFieldText(n) && IsDateStr(d)
    case AskReason(n, d, t) => IsFieldText(n) && IsDateStr(d) && IsTimeStr(t)
    case Confirm(n, d, t, r) => IsFieldText(n) && IsDateStr(d) && IsTimeStr(t) && IsFieldText(r)
  }

  predicate AllWellFormed(sessions: map<string, Session>) {
    forall p :: p in sessions ==> WellFormed(sessions[p])
  }

  /** The stored defaults are field texts. */
  lemma DefaultsAreFieldText()
    ensures IsFieldText(DefaultName) && IsFieldText(DefaultReason)
  {
    TrimmedFixpoint(DefaultName);
    TrimmedFixpoint(DefaultReason);
  }

  /** Every `setSession` writes a well-formed session, so well-formedness of
      the store is an invariant of the conversation. */
  lemma TurnKeepsWellFormed(w: World, o: Oracle, phone: string, text: string)
    requires AllWellFormed(w.sessions)
    ensures AllWellFormed(Turn(w, o, phone, text).sessions)
  {
    var incoming := Normalize(Some(text));
    NormalizeTrimmed(Some(text));
    DefaultsAreFieldText();
    var w' := Turn(w, o, phone, text);
    TurnSendsOneReply(w, o, phone, text);
    if phone in w'.sessions {
      var s := SessionOf(w, phone);
      assert s == Init || WellFormed(s);
      match s
      case Init => FirstContact(w, o, phone, text);
      case AskName => NameStep(w, o, phone, text);
      case AskDate(n) => DateStep(w, o, phone, n, text);
      case AskTime(n, d) => TimeStep(w, o, phone, n, d, text);
      case AskReason(n, d, tm) => ReasonStep(w, o, phone, n, d, tm, text);
      case Confirm(n, d, tm, r) => AnswerStep(w, o, phone, n, d, tm, r, text);
    }
  }

  /** A whole batch keeps every stored session well-formed. */
  lemma {:induction false} BatchKeepsWellFormed(w: World, o: Oracle, ms: seq<Incoming>)
    requires AllWellFormed(w.sessions)
    ensures AllWellFormed(RunBatch(w, o, ms).sessions)
  {
    if ms != [] {
      BatchKeepsWellFormed(w, o, ms[..|ms| - 1]);
      var m := ms[|ms| - 1];
      if IsTextMessage(m) {
        TurnKeepsWellFormed(RunBatch(w, o, ms[..|ms| - 1]), o, m.from, m.body.value);
      }
    }
  }

  // ---------------------------------------------------------------------------
  // The batch loop
  // ---------------------------------------------------------------------------

  /** A message that is not text, or has an empty body, gets the text-only
      reply and touches nothing else. */
  lemma NonTextMessage(w: World, o: Oracle, m: Incoming)
    requires !IsTextMessage(m)
    ensures Dispatch(w, o, m) == w.(sent := w.sent + [Outgoing(m.from, TextOnly)])
  {
  }

  /** A batch sends exactly one text per message, in array order, to each
      message's sender, and makes at most one `schedule` call per message. */
  lemma {:induction false} BatchOneReplyEach(w: World, o: Oracle, ms: seq<Incoming>)
    ensures var w' := RunBatch(w, o, ms);
      |w'.sent| == |w.sent| + |ms| && w'.sent[..|w.sent|] == w.sent
      && (forall k :: 0 <= k < |ms| ==> w'.sent[|w.sent| + k].to == ms[k].from)
      && |w'.calls| <= |w.calls| + |ms|
  {
    if ms != [] {
      var init := ms[..|ms| - 1];
      var m := ms[|ms| - 1];
      BatchOneReplyEach(w, o, init);
      var v := RunBatch(w, o, init);
      var w' := RunBatch(w, o, ms);
      assert w' == Dispatch(v, o, m);
      if IsTextMessage(m) {
        TurnSendsOneReply(v, o, m.from, m.body.value);
        ScheduleOnlyOnYes(v, o, m.from, m.body.value);
      }
      assert w'.sent[..|v.sent|] == v.sent;
      assert w'.sent[..|w.sent|] == v.sent[..|w.sent|];
      forall k | 0 <= k < |ms| ensures w'.sent[|w.sent| + k].to == ms[k].from {
        if k < |init| {
          assert w'.sent[|w.sent| + k] == v.sent[|w.sent| + k];
          assert ms[k] == init[k];
        }
      }
    }
  }

  // ---------------------------------------------------------------------------
  // A whole booking
  // ---------------------------------------------------------------------------

  /** A new phone's first text only brings the greeting, whatever it says;
      the next five answers (a name, a free business date, one of its slots, a
      reason and a yes) make exactly one `schedule` call, with the collected
      fields, and clear the session. */
  lemma BookingConversation(w: World, o: Oracle, phone: string, hello: string, name: string,
                            date: string, time: string, reason: string, yes: string)
    requires phone !in w.sessions
    requires IsFieldText(name) && IsFieldText(reason)
    requires IsDateStr(date) && Trim(date) == date && IsTimeStr(time) && Trim(time) == time
    requires o.availability(w.appointments, date).isBusinessDay
    requires time in o.availability(w.appointments, date).slots
    requires IsAffirmative(ToLower(Trim(yes)))
    ensures var w' := Turn(Turn(Turn(Turn(Turn(Turn(w, o, phone, hello), o, phone, name),
                         o, phone, date), o, phone, time), o, phone, reason), o, phone, yes);
      w'.calls == w.calls + [Booking(name, phone, date, time, reason)]
      && phone !in w'.sessions
  {
    var w1 := Turn(w, o, phone, hello);
    FirstContact(w, o, phone, hello);
    var w2 := Turn(w1, o, phone, name);
    NameStep(w1, o, phone, name);
    var w3 := Turn(w2, o, phone, date);
    DateStep(w2, o, phone, name, date);
    var w4 := Turn(w3, o, phone, time);
    TimeStep(w3, o, phone, name, date, time);
    var w5 := Turn(w4, o, phone, reason);
    ReasonStep(w4, o, phone, name, date, time, reason);
    AnswerStep(w5, o, phone, name, date, time, reason, yes);
  }
}
