/**
 * The appointment handlers of the second backend (backend/src): booking with
 * its generated id and status rule, the slot check, cancellation and the two
 * reads.  The collection is a table of appointments whose `appointmentId`
 * carries a unique index.
 */
module AppointmentController {
  import opened Wrappers
  import opened Ids
  import opened Text
  import opened Js
  import opened Ordering
  import opened Store

  datatype PaymentMethod = Cash | Online

  datatype PaymentStatus = Pending | Completed

  datatype AppointmentStatus = Booked | Confirmed | Done | Cancelled

  /** A stored appointment.  `date` is the booked instant in milliseconds. */
  datatype Appointment = Appointment(
    appointmentId: string,
    patientName: string,
    patientPhone: string,
    patientEmail: Option<string>,
    patientAge: Option<int>,
    symptoms: Option<string>,
    department: string,
    doctorName: string,
    doctorSpecialization: Option<string>,
    date: int,
    appointmentTime: string,
    consultationFee: int,
    paymentMethod: PaymentMethod,
    paymentStatus: PaymentStatus,
    status: AppointmentStatus,
    bookedAt: int)

  /** The body of POST /appointments.  `when` is what `new Date(appointmentDate
      + 'T' + appointmentTime)` yields, None for an invalid date. */
  datatype AppointmentBody = AppointmentBody(
    patientName: Option<string>,
    patientPhone: Option<string>,
    patientEmail: Option<string>,
    patientAge: Option<int>,
    symptoms: Option<string>,
    department: Option<string>,
    doctorName: Option<string>,
    doctorSpecialization: Option<string>,
    when: Option<int>,
    appointmentTime: Option<string>,
    consultationFee: Option<int>,
    paymentMethod: Option<string>)

  /** `paymentMethod === 'online' ? 'confirmed' : 'booked'`. */
  function StatusFor(paymentMethod: Option<string>): (s: AppointmentStatus)
    ensures s == Confirmed <==> paymentMethod == Some("online")
    ensures s == Booked <==> paymentMethod != Some("online")
  {
    if paymentMethod == Some("online") then Confirmed else Booked
  }

  function ParsePaymentMethod(s: string): Option<PaymentMethod> {
    if s == "cash" then Some(Cash) else if s == "online" then Some(Online) else None
  }

  /** `'AP' + Date.now().toString().slice(-8)`. */
  function AppointmentId(nowMs: nat): (id: string)
    ensures 3 <= |id| <= 10 && id[..2] == "AP"
    ensures forall i :: 2 <= i < |id| ==> '0' <= id[i] <= '9'
    ensures nowMs >= Pow10(7) ==> |id| == 10
  {
    var digits := DecimalString(nowMs);
    assert nowMs >= Pow10(7) ==> |digits| > 7 by {
      if nowMs >= Pow10(7) {
        DecimalStringLength(nowMs, 7);
      }
    }
    "AP" + LastChars(digits, 8)
  }

  function Digit(d: nat): char
    requires d < 10
  {
    ('0' as int + d) as char
  }

  /** The last `k` decimal digits of `n`, padded with zeros. */
  function PaddedDigits(n: nat, k: nat): string {
    if k == 0 then [] else PaddedDigits(n / 10, k - 1) + [Digit(n % 10)]
  }

  /** The last `k` characters of the decimal rendering are the last `k` digits. */
  lemma {:induction false} SuffixDigits(n: nat, k: nat)
    requires |DecimalString(n)| >= k
    ensures DecimalString(n)[|DecimalString(n)| - k..] == PaddedDigits(n, k)
  {
    var s := DecimalString(n);
    if k > 0 {
      if n < 10 {
        assert s[|s| - k..] == s;
      } else {
        var front := DecimalString(n / 10);
        assert s == front + [Digit(n % 10)];
        SuffixDigits(n / 10, k - 1);
        assert s[|s| - k..] == front[|front| - (k - 1)..] + [Digit(n % 10)];
      }
    }
  }

  /** The last `k` digits do not see a multiple of `10^k`. */
  lemma {:induction false} PaddedDigitsPeriodic(n: nat, k: nat)
    ensures PaddedDigits(n + Pow10(k), k) == PaddedDigits(n, k)
  {
    if k > 0 {
      var p := Pow10(k - 1);
      assert (n + 10 * p) / 10 == n / 10 + p;
      assert (n + 10 * p) % 10 == n % 10;
      PaddedDigitsPeriodic(n / 10, k - 1);
    }
  }

  /** From `10^7` ms on, the id is 'AP' and the last eight digits. */
  lemma AppointmentIdDigits(nowMs: nat)
    requires nowMs >= Pow10(7)
    ensures AppointmentId(nowMs) == "AP" + PaddedDigits(nowMs, 8)
  {
    DecimalStringLength(nowMs, 7);
    SuffixDigits(nowMs, 8);
  }

  /** The generated id repeats every `10^8` ms (about 27.8 hours). */
  lemma AppointmentIdPeriodic(nowMs: nat)
    requires nowMs >= Pow10(7)
    ensures AppointmentId(nowMs + Pow10(8)) == AppointmentId(nowMs)
  {
    AppointmentIdDigits(nowMs);
    AppointmentIdDigits(nowMs + Pow10(8));
    PaddedDigitsPeriodic(nowMs, 8);
  }

  /** The last character of the decimal rendering is the last digit. */
  lemma DecimalStringLast(n: nat)
    ensures DecimalString(n)[|DecimalString(n)| - 1] == Digit(n % 10)
  {
    if n >= 10 {
      var front := DecimalString(n / 10);
      assert DecimalString(n) == front + [Digit(n % 10)];
    }
  }

  /** The id ends in the last digit of the timestamp. */
  lemma AppointmentIdLast(nowMs: nat)
    ensures AppointmentId(nowMs)[|AppointmentId(nowMs)| - 1] == Digit(nowMs % 10)
  {
    var digits := DecimalString(nowMs);
    DecimalStringLast(nowMs);
    var tail := LastChars(digits, 8);
    assert tail == digits[|digits| - |tail|..];
    assert |tail| >= 1;
    assert tail[|tail| - 1] == digits[|digits| - 1];
    var id := "AP" + tail;
    assert id[|id| - 1] == tail[|tail| - 1];
    assert AppointmentId(nowMs) == id;
  }

  lemma DigitInjective(d: nat, e: nat)
    requires d < 10 && e < 10 && d != e
    ensures Digit(d) != Digit(e)
  {
    assert Digit(d) as int == '0' as int + d;
    assert Digit(e) as int == '0' as int + e;
  }

  lemma NextLastDigit(n: nat)
    ensures (n + 1) % 10 != n % 10
  {
    var q, d := n / 10, n % 10;
    assert n == 10 * q + d;
    if d < 9 {
      assert n + 1 == 10 * q + (d + 1);
    } else {
      assert n + 1 == 10 * (q + 1);
    }
  }

  /** Ids generated one millisecond apart differ (in their last digit). */
  lemma AppointmentIdNext(nowMs: nat)
    ensures AppointmentId(nowMs + 1) != AppointmentId(nowMs)
  {
    var x, y := AppointmentId(nowMs), AppointmentId(nowMs + 1);
    AppointmentIdLast(nowMs);
    AppointmentIdLast(nowMs + 1);
    NextLastDigit(nowMs);
    DigitInjective(nowMs % 10, (nowMs + 1) % 10);
  }

  /** The validators run by `save()`: the required strings non-empty, the
      date valid, the fee present, the payment method one of the two. */
  predicate BodyValid(body: AppointmentBody) {
    && StrGiven(body.patientName)
    && StrGiven(body.patientPhone)
    && StrGiven(body.department)
    && StrGiven(body.doctorName)
    && body.when.Some?
    && StrGiven(body.appointmentTime)
    && body.consultationFee.Some?
    && body.paymentMethod.Some? && ParsePaymentMethod(body.paymentMethod.value).Some?
  }

  /**
   * `new Appointment({...})`, or None when validation fails.  The handler
   * reads the clock twice: `idMs` is its own `Date.now()`, from which the
   * id is made, and `bookedMs` the one the schema default of `bookedAt`
   * takes when the document is built.
   */
  function NewAppointment(body: AppointmentBody, idMs: nat, bookedMs: int): (r: Option<Appointment>)
    ensures r.Some? <==> BodyValid(body)
    ensures r.Some? ==>
      && r.value.appointmentId == AppointmentId(idMs)
      && Some(r.value.patientName) == body.patientName
      && Some(r.value.patientPhone) == body.patientPhone
      && r.value.patientEmail == body.patientEmail
      && r.value.patientAge == body.patientAge
      && r.value.symptoms == body.symptoms
      && Some(r.value.department) == body.department
      && Some(r.value.doctorName) == body.doctorName
      && r.value.doctorSpecialization == body.doctorSpecialization
      && Some(r.value.date) == body.when
      && Some(r.value.appointmentTime) == body.appointmentTime
      && Some(r.value.consultationFee) == body.consultationFee
      && Some(r.value.paymentMethod) == ParsePaymentMethod(body.paymentMethod.value)
      && r.value.paymentStatus == Pending
      && r.value.status == StatusFor(body.paymentMethod)
      && r.value.bookedAt == bookedMs
  {
    if !BodyValid(body) then None
    else
      Some(Appointment(
        appointmentId := AppointmentId(idMs),
        patientName := body.patientName.value,
        patientPhone := body.patientPhone.value,
        patientEmail := body.patientEmail,
        patientAge := body.patientAge,
        symptoms := body.symptoms,
        department := body.department.value,
        doctorName := body.doctorName.value,
        doctorSpecialization := body.doctorSpecialization,
        date := body.when.value,
        appointmentTime := body.appointmentTime.value,
        consultationFee := body.consultationFee.value,
        paymentMethod := ParsePaymentMethod(body.paymentMethod.value).value,
        paymentStatus := Pending,
        status := StatusFor(body.paymentMethod),
        bookedAt := bookedMs))
  }

  /** A stored appointment already uses this `appointmentId`. */
  predicate IdTaken(rows: map<Id, Appointment>, appointmentId: string) {
    exists k :: k in rows && rows[k].appointmentId == appointmentId
  }

  /** The unique index: no two stored appointments share an `appointmentId`. */
  ghost predicate UniqueIds(rows: map<Id, Appointment>) {
    forall j, k :: j in rows && k in rows && j != k ==> rows[j].appointmentId != rows[k].appointmentId
  }

  /** Storing an appointment whose id is not taken keeps the index unique. */
  lemma InsertKeepsUnique(rows: map<Id, Appointment>, k: Id, a: Appointment)
    requires UniqueIds(rows) && k !in rows && !IdTaken(rows, a.appointmentId)
    ensures UniqueIds(rows[k := a])
  {
  }

  /** Appointment `a` occupies the slot asked about: same doctor, same time
      of day, booked within the 24 hours from `dayStart`, not cancelled. */
  predicate Conflicts(a: Appointment, doctorName: string, dayStart: int, appointmentTime: string) {
    && a.doctorName == doctorName
    && dayStart <= a.date < dayStart + 24 * 60 * 60 * 1000
    && a.appointmentTime == appointmentTime
    && a.status != Cancelled
  }

  /** GET /appointments/check-slot over the appointments in insertion order:
      `findOne` for a conflicting appointment.  `dayStart` is what
      `new Date(appointmentDate)` yields, None for an invalid date, which
      fails the query. */
  function CheckSlotAvailability(rows: seq<Appointment>, doctorName: string, dayStart: Option<int>, appointmentTime: string)
    : (r: Reply<bool>)
    ensures dayStart.None? ==> r.Error? && r.code == ServerError
    ensures dayStart.Some? ==> r.Ok? && r.code == 200
    ensures r.Ok? ==>
      (r.value <==> forall i :: 0 <= i < |rows| ==> !Conflicts(rows[i], doctorName, dayStart.value, appointmentTime))
  {
    if dayStart.None? then Error(ServerError, "Invalid date")
    else Ok(200, FirstIndex(rows, a => Conflicts(a, doctorName, dayStart.value, appointmentTime)).None?)
  }

  /** A cancelled appointment never blocks its slot. */
  lemma CancelledFreesSlot(rows: seq<Appointment>, i: nat, doctorName: string, dayStart: int, appointmentTime: string)
    requires i < |rows|
    requires forall j :: 0 <= j < |rows| && j != i ==> !Conflicts(rows[j], doctorName, dayStart, appointmentTime)
    ensures CheckSlotAvailability(rows[i := rows[i].(status := Cancelled)], doctorName, Some(dayStart), appointmentTime)
            == Ok(200, true)
  {
    var after := rows[i := rows[i].(status := Cancelled)];
    assert forall j :: 0 <= j < |after| ==> !Conflicts(after[j], doctorName, dayStart, appointmentTime);
  }

  /** The patient filter of GET /appointments. */
  predicate PhoneMatches(patientPhone: Option<string>, a: Appointment) {
    StrGiven(patientPhone) ==> a.patientPhone == patientPhone.value
  }

  /** GET /appointments over the appointments in insertion order: those of
      the patient when a phone is given, newest `bookedAt` first. */
  function GetAppointments(rows: seq<Appointment>, patientPhone: Option<string>): (r: seq<Appointment>)
    ensures multiset(r) == multiset(Filter(rows, a => PhoneMatches(patientPhone, a)))
    ensures Descending(r, (a: Appointment) => a.bookedAt as real)
  {
    var matches := Filter(rows, a => PhoneMatches(patientPhone, a));
    SortDescDescending(matches, (a: Appointment) => a.bookedAt as real);
    SortDesc(matches, (a: Appointment) => a.bookedAt as real)
  }

  /** An appointment is listed exactly when it is stored and matches the phone. */
  lemma GetAppointmentsMember(rows: seq<Appointment>, patientPhone: Option<string>, a: Appointment)
    ensures a in GetAppointments(rows, patientPhone) <==> a in rows && PhoneMatches(patientPhone, a)
  {
    var r := GetAppointments(rows, patientPhone);
    assert a in r <==> a in multiset(r);
    FilterMember(rows, x => PhoneMatches(patientPhone, x), a);
  }

  /** The stored appointments: a table with a unique index on `appointmentId`. */
  class AppointmentTable {
    var rows: map<Id, Appointment>
    var nextId: Id

    ghost predicate Valid()
      reads this
    {
      (forall k :: k in rows ==> k < nextId) && UniqueIds(rows)
    }

    constructor ()
      ensures Valid() && rows == map[]
    {
      rows, nextId := map[], 0;
    }

    /** POST /appointments with the clock readings `idMs` and `bookedMs`:
        400 when validation fails or the generated id is already stored (the
        duplicate-key error), else the appointment is stored and returned
        with 201.  The slot is not consulted. */
    method CreateAppointment(body: AppointmentBody, idMs: nat, bookedMs: int) returns (reply: Reply<Appointment>)
      requires Valid()
      modifies this
      ensures Valid()
      ensures var a := NewAppointment(body, idMs, bookedMs);
        && (a.None? || IdTaken(old(rows), AppointmentId(idMs)) ==>
              reply.Error? && reply.code == BadRequest && rows == old(rows) && nextId == old(nextId))
        && (a.Some? && !IdTaken(old(rows), AppointmentId(idMs)) ==>
              rows == old(rows)[old(nextId) := a.value] && nextId == old(nextId) + 1 && reply == Ok(Created, a.value))
    {
      var a := NewAppointment(body, idMs, bookedMs);
      if a.None? {
        return Error(BadRequest, "Appointment validation failed");
      }
      if IdTaken(rows, a.value.appointmentId) {
        return Error(BadRequest, "Duplicate appointmentId");
      }
      InsertKeepsUnique(rows, nextId, a.value);
      rows := rows[nextId := a.value];
      nextId := nextId + 1;
      reply := Ok(Created, a.value);
    }

    /** PATCH /appointments/:id/cancel: only the status changes; an unknown
        id is a success with no data. */
    method CancelAppointment(id: Id) returns (reply: Reply<Option<Appointment>>)
      requires Valid()
      modifies this`rows
      ensures Valid()
      ensures id in old(rows) ==>
        && rows == old(rows)[id := old(rows)[id].(status := Cancelled)]
        && reply == Ok(200, Some(rows[id]))
      ensures id !in old(rows) ==> rows == old(rows) && reply == Ok(200, None)
    {
      if id !in rows {
        return Ok(200, None);
      }
      rows := rows[id := rows[id].(status := Cancelled)];
      reply := Ok(200, Some(rows[id]));
    }

    /** PATCH /appointments/:id: each status that is present is written,
        an absent one is left alone; an unknown id is a success with no data. */
    method UpdateAppointment(id: Id, appointmentStatus: Option<AppointmentStatus>, paymentStatus: Option<PaymentStatus>)
      returns (reply: Reply<Option<Appointment>>)
      requires Valid()
      modifies this`rows
      ensures Valid()
      ensures id in old(rows) ==>
        && rows == old(rows)[id := old(rows)[id].(status := appointmentStatus.GetOr(old(rows)[id].status),
                                                  paymentStatus := paymentStatus.GetOr(old(rows)[id].paymentStatus))]
        && reply == Ok(200, Some(rows[id]))
      ensures id !in old(rows) ==> rows == old(rows) && reply == Ok(200, None)
    {
      if id !in rows {
        return Ok(200, None);
      }
      var a := rows[id];
      rows := rows[id := a.(status := appointmentStatus.GetOr(a.status), paymentStatus := paymentStatus.GetOr(a.paymentStatus))];
      reply := Ok(200, Some(rows[id]));
    }

    /** GET /appointments/:id: 404 for an unknown id. */
    method GetAppointmentById(id: Id) returns (reply: Reply<Appointment>)
      ensures reply.Ok? <==> id in rows
      ensures reply.Ok? ==> reply == Ok(200, rows[id])
      ensures reply.Error? ==> reply.code == NotFound
    {
      if id !in rows {
        return Error(NotFound, "Appointment not found");
      }
      return Ok(200, rows[id]);
    }
  }

  /** Two bookings of the same doctor, day and time made a millisecond
      apart both succeed, and both occupy the slot. */
  method DoubleBooking(nowMs: nat) returns (first: Reply<Appointment>, second: Reply<Appointment>)
    ensures first.Ok? && second.Ok?
    ensures Conflicts(first.value, "Dr. Rahman", 0, "10:00") && Conflicts(second.value, "Dr. Rahman", 0, "10:00")
  {
    var body := AppointmentBody(
      Some("Rahim"), Some("01700000000"), None, None, None, Some("Cardiology"),
      Some("Dr. Rahman"), None, Some(36000000), Some("10:00"), Some(500), Some("cash"));
    assert BodyValid(body);
    var table := new AppointmentTable();
    first := table.CreateAppointment(body, nowMs, nowMs);
    AppointmentIdNext(nowMs);
    assert !IdTaken(table.rows, AppointmentId(nowMs + 1));
    second := table.CreateAppointment(body, nowMs + 1, nowMs + 1);
  }
}
