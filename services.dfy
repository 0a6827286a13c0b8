/** The collaborators the routes call into: the session and appointment store
    (`lib/store`), the scheduler (`lib/scheduler`) and the outbound WhatsApp
    sender (`lib/whatsapp`). Their implementations are not part of this model:
    the store is assumed to keep one session per phone under get/set/clear,
    with `clearSession` removing only that phone's entry; the scheduler's two
    functions are supplied from outside as an `Oracle`; and sending is an
    append to an outbox. */
module Services {
  import opened Optional

  /** The conversation state stored per phone number, one constructor per
      `step`, each carrying exactly the fields collected before reaching it. */
  datatype Session =
    | Init
    | AskName
    | AskDate(name: string)
    | AskTime(name: string, date: string)
    | AskReason(name: string, date: string, time: string)
    | Confirm(name: string, date: string, time: string, reason: string)

  /** A committed booking as the store lists it. */
  datatype Appointment = Appointment(
    id: string, patientName: string, phone: string, date: string, time: string,
    reason: string, createdAt: string)

  /** The arguments of one `schedule(name, phone, date, time, reason)` call. */
  datatype Booking = Booking(name: string, phone: string, date: string, time: string, reason: string)

  /** The result of `getAvailability(date)`. */
  datatype Availability = Availability(isBusinessDay: bool, slots: seq<string>)

  /** The result of `schedule`: `{ok: true, humanTime}` or `{ok: false, error}`. */
  datatype ScheduleResult = Scheduled(humanTime: string) | NotScheduled(error: string)

  /** The scheduler's behaviour, which is not part of this model: availability
      of a date and the outcome of a booking attempt, each as a function of the
      committed appointments; `book` also gives the appointments afterwards. */
  datatype Oracle = Oracle(
    availability: (seq<Appointment>, string) -> Availability,
    book: (seq<Appointment>, Booking) -> (ScheduleResult, seq<Appointment>))

  /** The kinds of WhatsApp text the webhook sends, with the values the texts
      interpolate. */
  datatype Reply =
    | Greeting
    | AskDatePrompt(name: string)
    | DateFormatError
    | NotBusinessDay
    | NoSlots
    | SlotList(date: string, shown: seq<string>)
    | TimeFormatError
    | TimeUnavailable
    | ReasonPrompt
    | ConfirmPrompt(date: string, time: string, reason: string)
    | Confirmed(humanTime: string, name: string)
    | BookingFailed(error: string)
    | Cancelled
    | AnswerSimNao
    | TextOnly

  /** One `sendWhatsAppText(to, text)` call. */
  datatype Outgoing = Outgoing(to: string, reply: Reply)

  /** The shared store: sessions keyed by phone number and the committed
      appointments. `clearAllCalls` counts `clearAll` calls. */
  class Store {
    var sessions: map<string, Session>
    var appointments: seq<Appointment>
    var clearAllCalls: nat

    constructor ()
      ensures sessions == map[] && appointments == [] && clearAllCalls == 0
    {
      sessions := map[];
      appointments := [];
      clearAllCalls := 0;
    }

    /** `Store.getSession(phone)`: undefined when nothing is stored. */
    function GetSession(phone: string): Option<Session>
      reads this
    {
      if phone in sessions then Some(sessions[phone]) else None
    }

    /** `Store.setSession(phone, s)`: replaces the session of `phone` whole. */
    method SetSession(phone: string, s: Session)
      modifies this
      ensures sessions == old(sessions)[phone := s]
      ensures appointments == old(appointments) && clearAllCalls == old(clearAllCalls)
    {
      sessions := sessions[phone := s];
    }

    /** `Store.clearSession(phone)`. */
    method ClearSession(phone: string)
      modifies this
      ensures sessions == old(sessions) - {phone}
      ensures appointments == old(appointments) && clearAllCalls == old(clearAllCalls)
    {
      sessions := sessions - {phone};
    }

    /** `Store.listAppointments()`. */
    function ListAppointments(): seq<Appointment>
      reads this
    {
      appointments
    }

    /** `Store.clearAll()`: assumed to discard every appointment and every
        session. */
    method ClearAll()
      modifies this
      ensures sessions == map[] && appointments == []
      ensures clearAllCalls == old(clearAllCalls) + 1
    {
      sessions := map[];
      appointments := [];
      clearAllCalls := clearAllCalls + 1;
    }
  }

  /** The scheduler: its behaviour is the oracle it is built with, and `calls`
      records every `schedule` call in order. */
  class Scheduler {
    const oracle: Oracle
    var calls: seq<Booking>

    constructor (oracle: Oracle)
      ensures this.oracle == oracle && calls == []
    {
      this.oracle := oracle;
      calls := [];
    }

    /** `getAvailability(date)` against the appointments committed so far. */
    function GetAvailability(store: Store, date: string): Availability
      reads store
    {
      oracle.availability(store.appointments, date)
    }

    /** `schedule(name, phone, date, time, reason)`: records the call and
      commits whatever the oracle commits. */
    method Schedule(store: Store, b: Booking) returns (res: ScheduleResult)
      modifies this, store
      ensures calls == old(calls) + [b]
      ensures (res, store.appointments) == oracle.book(old(store.appointments), b)
      ensures store.sessions == old(store.sessions) && store.clearAllCalls == old(store.clearAllCalls)
    {
      calls := calls + [b];
      var (r, appts) := oracle.book(store.appointments, b);
      store.appointments := appts;
      res := r;
    }
  }

  /** The outbound WhatsApp channel: every text sent, in order. */
  class Outbox {
    var sent: seq<Outgoing>

    constructor ()
      ensures sent == []
    {
      sent := [];
    }

    /** `sendWhatsAppText(to, text)`, which the model treats as never failing. */
    method Send(to: string, reply: Reply)
      modifies this
      ensures sent == old(sent) + [Outgoing(to, reply)]
    {
      sent := sent + [Outgoing(to, reply)];
    }
  }
}
