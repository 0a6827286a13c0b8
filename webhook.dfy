/** The WhatsApp webhook route: the subscription check (`GET`), the booking
    conversation (`handleConversation`) and the batch loop (`POST`). */
module Webhook {
  import opened Optional
  import opened Formats
  import opened Services

  // ---------------------------------------------------------------------------
  // GET: webhook verification
  // ---------------------------------------------------------------------------

  datatype VerifyResponse = Challenge(body: string) | Forbidden

  /** `GET`: answers the challenge (or "") with 200 only when `hub.mode` is
      "subscribe" and `hub.verify_token` is present and strictly equal to the
      configured `WHATSAPP_VERIFY_TOKEN`; 403 otherwise. A missing parameter is
      `null` and an unset variable `undefined`, which are not strictly equal. */
  function VerifyGet(mode: Option<string>, token: Option<string>, challenge: Option<string>,
                     verifyToken: Option<string>): (r: VerifyResponse)
    ensures r.Challenge? ==> r.body == challenge.GetOr("")
  {
    if mode == Some("subscribe") && token.Some? && token == verifyToken then Challenge(challenge.GetOr(""))
    else Forbidden
  }

  /** The challenge is answered exactly for a subscribe request whose token is
      the configured one; with no configured token nothing is answered. */
  lemma VerifyIff(mode: Option<string>, token: Option<string>, challenge: Option<string>,
                  verifyToken: Option<string>)
    ensures VerifyGet(mode, token, challenge, verifyToken).Challenge? <==>
            mode == Some("subscribe") && verifyToken.Some? && token == verifyToken
    ensures verifyToken.None? ==> VerifyGet(mode, token, challenge, verifyToken) == Forbidden
  {
  }

  // ---------------------------------------------------------------------------
  // The state the conversation reads and writes
  // ---------------------------------------------------------------------------

  /** A snapshot of everything a webhook call can change: the stored
      sessions, the committed appointments, the texts sent and the `schedule`
      calls made. */
  datatype World = World(
    sessions: map<string, Session>,
    appointments: seq<Appointment>,
    sent: seq<Outgoing>,
    calls: seq<Booking>)

  function Snap(store: Store, sched: Scheduler, outbox: Outbox): World
    reads store, sched, outbox
  {
    World(store.sessions, store.appointments, outbox.sent, sched.calls)
  }

  const DefaultName := "Paciente"
  const DefaultReason := "Consulta"
  const MaxShownSlots := 8

  /** The accepted affirmative answers, after lower-casing. */
  predicate IsAffirmative(ans: string) {
    ans == "sim" || ans == "s" || ans == "confirmo"
  }

  /** The accepted negative answers, after lower-casing; "n?o" is a literal
      token with a question mark. */
  predicate IsNegative(ans: string) {
    ans == "nao" || ans == "n?o" || ans == "n"
  }

  /** `slots.slice(0, 8)`: the slots listed in the reply. */
  function Shown(slots: seq<string>): (r: seq<string>)
    ensures |r| == if |slots| < MaxShownSlots then |slots| else MaxShownSlots
    ensures r == slots[..|r|]
  {
    if |slots| <= MaxShownSlots then slots else slots[..MaxShownSlots]
  }

  /** The session stored for `phone`, an absent one read as `Init`. */
  function SessionOf(w: World, phone: string): Session {
    if phone in w.sessions then w.sessions[phone] else Init
  }

  function Say(w: World, phone: string, reply: Reply): World {
    w.(sent := w.sent + [Outgoing(phone, reply)])
  }

  /** The snapshot with the session of `phone` replaced by `s`. */
  function Put(w: World, phone: string, s: Session): World {
    w.(sessions := w.sessions[phone := s])
  }

  /** One call of `handleConversation(phone, text)` on a snapshot: the
      specification the method below is proved against. */
  function Turn(w: World, o: Oracle, phone: string, text: string): World {
    var incoming := Normalize(Some(text));
    match SessionOf(w, phone)
    case Init => Say(Put(w, phone, AskName), phone, Greeting)
    case AskName => TakeName(w, phone, incoming)
    case AskDate(name) => TakeDate(w, o, phone, name, incoming)
    case AskTime(name, date) => TakeTime(w, o, phone, name, date, incoming)
    case AskReason(name, date, time) => TakeReason(w, phone, name, date, time, incoming)
    case Confirm(name, date, time, reason) => TakeAnswer(w, o, phone, name, date, time, reason, incoming)
  }

  /** `ask_name`: any text is the name, the empty one standing for "Paciente". */
  function TakeName(w: World, phone: string, incoming: string): World {
    var name := if incoming == "" then DefaultName else incoming;
    Say(Put(w, phone, AskDate(name)), phone, AskDatePrompt(name))
  }

  /** `ask_date`: a well-formed business day with at least one free slot is
      taken and the first slots are listed; anything else is asked again. */
  function TakeDate(w: World, o: Oracle, phone: string, name: string, incoming: string): World {
    if !IsDateStr(incoming) then Say(w, phone, DateFormatError)
    else
      var avail := o.availability(w.appointments, incoming);
      if !avail.isBusinessDay then Say(w, phone, NotBusinessDay)
      else if |avail.slots| == 0 then Say(w, phone, NoSlots)
      else Say(Put(w, phone, AskTime(name, incoming)), phone, SlotList(incoming, Shown(avail.slots)))
  }

  /** `ask_time`: a well-formed time among the date's current free slots is
      taken; anything else is asked again. */
  function TakeTime(w: World, o: Oracle, phone: string, name: string, date: string, incoming: string): World {
    if !IsTimeStr(incoming) then Say(w, phone, TimeFormatError)
    else if incoming !in o.availability(w.appointments, date).slots then Say(w, phone, TimeUnavailable)
    else Say(Put(w, phone, AskReason(name, date, incoming)), phone, ReasonPrompt)
  }

  /** `ask_reason`: any text is the reason, the empty one standing for "Consulta". */
  function TakeReason(w: World, phone: string, name: string, date: string, time: string, incoming: string): World {
    var reason := if incoming == "" then DefaultReason else incoming;
    Say(Put(w, phone, Confirm(name, date, time, reason)), phone, ConfirmPrompt(date, time, reason))
  }

  /** `confirm`: yes books and clears, no clears, anything else asks again. */
  function TakeAnswer(w: World, o: Oracle, phone: string, name: string, date: string, time: string,
                      reason: string, incoming: string): World {
    var ans := ToLower(incoming);
    if IsAffirmative(ans) then
      var b := Booking(name, phone, date, time, reason);
      var (res, appts) := o.book(w.appointments, b);
      var reply := if res.Scheduled? then Confirmed(res.humanTime, name) else BookingFailed(res.error);
      Say(World(w.sessions - {phone}, appts, w.sent, w.calls + [b]), phone, reply)
    else if IsNegative(ans) then Say(w.(sessions := w.sessions - {phone}), phone, Cancelled)
    else Say(w, phone, AnswerSimNao)
  }

  // ---------------------------------------------------------------------------
  // handleConversation
  // ---------------------------------------------------------------------------

  /** `handleConversation(phone, text)`: reads the session of `phone`, writes
      or clears it, sends one text and, from `confirm`, calls `schedule`. */
  method HandleConversation(store: Store, sched: Scheduler, outbox: Outbox, phone: string, text: string)
    modifies store, sched, outbox
    ensures Snap(store, sched, outbox) == Turn(old(Snap(store, sched, outbox)), sched.oracle, phone, text)
    ensures store.clearAllCalls == old(store.clearAllCalls)
  {
    ghost var w := Snap(store, sched, outbox);
    var incoming := Normalize(Some(text));
    var session := store.GetSession(phone).GetOr(Init);
    assert session == SessionOf(w, phone);
    match session
    case Init =>
      store.SetSession(phone, AskName);
      outbox.Send(phone, Greeting);
    case AskName =>
      var name := if incoming == "" then DefaultName else incoming;
      store.SetSession(phone, AskDate(name));
      outbox.Send(phone, AskDatePrompt(name));
    case AskDate(name) =>
      if !IsDateStr(incoming) {
        outbox.Send(phone, DateFormatError);
        return;
      }
      var avail := sched.GetAvailability(store, incoming);
      if !avail.isBusinessDay {
        outbox.Send(phone, NotBusinessDay);
        return;
      }
      if |avail.slots| == 0 {
        outbox.Send(phone, NoSlots);
        return;
      }
      var times := Shown(avail.slots);
      outbox.Send(phone, SlotList(incoming, times));
      store.SetSession(phone, AskTime(name, incoming));
    case AskTime(name, date) =>
      if !IsTimeStr(incoming) {
        outbox.Send(phone, TimeFormatError);
        return;
      }
      var okTimes := sched.GetAvailability(store, date).slots;
      if incoming !in okTimes {
        outbox.Send(phone, TimeUnavailable);
        return;
      }
      store.SetSession(phone, AskReason(name, date, incoming));
      outbox.Send(phone, ReasonPrompt);
    case AskReason(name, date, time) =>
      var reason := if incoming == "" then DefaultReason else incoming;
      store.SetSession(phone, Confirm(name, date, time, reason));
      outbox.Send(phone, ConfirmPrompt(date, time, reason));
    case Confirm(name, date, time, reason) =>
      var ans := ToLower(incoming);
      if IsAffirmative(ans) {
        var res := sched.Schedule(store, Booking(name, phone, date, time, reason));
        if !res.Scheduled? {
          outbox.Send(phone, BookingFailed(res.error));
          store.ClearSession(phone);
          return;
        }
        outbox.Send(phone, Confirmed(res.humanTime, name));
        store.ClearSession(phone);
      } else if IsNegative(ans) {
        outbox.Send(phone, Cancelled);
        store.ClearSession(phone);
      } else {
        outbox.Send(phone, AnswerSimNao);
      }
  }

  // ---------------------------------------------------------------------------
  // POST: the batch loop
  // ---------------------------------------------------------------------------

  /** One extracted message: sender, `type` and `text.body` (absent when the
      message has no text part). */
  datatype Incoming = Incoming(from: string, kind: string, body: Option<string>)

  /** `m.type === "text" && m.text?.body`: an empty body is falsy. */
  predicate IsTextMessage(m: Incoming) {
    m.kind == "text" && m.body.Some? && m.body.value != ""
  }

  /** One iteration of the `POST` loop. */
  function Dispatch(w: World, o: Oracle, m: Incoming): World {
    if IsTextMessage(m) then Turn(w, o, m.from, m.body.value) else Say(w, m.from, TextOnly)
  }

  /** The messages of one batch dispatched in array order. */
  function RunBatch(w: World, o: Oracle, ms: seq<Incoming>): World
    decreases |ms|
  {
    if ms == [] then w else Dispatch(RunBatch(w, o, ms[..|ms| - 1]), o, ms[|ms| - 1])
  }

  /** `POST`: `messages` is what the payload extraction produced (`None` when
      it is not an array). Always answers `{ok: true}`. */
  method Post(store: Store, sched: Scheduler, outbox: Outbox, messages: Option<seq<Incoming>>)
    returns (ok: bool)
    modifies store, sched, outbox
    ensures ok
    ensures Snap(store, sched, outbox) == RunBatch(old(Snap(store, sched, outbox)), sched.oracle, messages.GetOr([]))
    ensures store.clearAllCalls == old(store.clearAllCalls)
  {
    if messages.None? || |messages.value| == 0 {
      return true;
    }
    var ms := messages.value;
    var i := 0;
    while i < |ms|
      invariant 0 <= i <= |ms|
      invariant Snap(store, sched, outbox) == RunBatch(old(Snap(store, sched, outbox)), sched.oracle, ms[..i])
      invariant store.clearAllCalls == old(store.clearAllCalls)
    {
      var m := ms[i];
      if m.kind == "text" && m.body.Some? && m.body.value != "" {
        HandleConversation(store, sched, outbox, m.from, m.body.value);
      } else {
        outbox.Send(m.from, TextOnly);
      }
      assert ms[..i + 1][..i] == ms[..i];
      i := i + 1;
    }
    assert ms[..i] == ms;
    return true;
  }
}
