/** The OPD service (opd.service): holds the live token list, issues tokens,
    moves them through their statuses, completes visits and checks in
    appointments, writing every change through the OPD repository. */
module Opd {
  import opened Common
  import opened Models
  import opened DataSync
  import opened OpdRepo
  import opened OpdQueue

  const TokenNotFound: string := "Registration record (token) not found."
  const AlreadyCheckedIn: string := "Appointment has already been checked in."

  /** A token after `updateTokenStatus(…, status, doctorId)`: the new status and
      update time; the given doctor if one is given, else the old one; a start
      time stamped on the first move into consultation. */
  function WithStatus(t: OpdToken, status: TokenStatus, doctorId: Option<string>, now: Instant): (u: OpdToken)
    ensures u.tokenNumber == t.tokenNumber && u.department == t.department && u.createdAt == t.createdAt
    ensures u.patientId == t.patientId && u.appointmentId == t.appointmentId && u.priority == t.priority
    ensures u.id == t.id && u.patientName == t.patientName && u.visitType == t.visitType && u.queuePosition == t.queuePosition
    ensures u.status == status && u.updatedAt == now
    ensures u.doctorId == if Truthy(doctorId) then doctorId else t.doctorId
    ensures t.consultationStartedAt.Some? ==> u.consultationStartedAt == t.consultationStartedAt
    ensures t.consultationStartedAt.None? && status == TokenStatus.InConsultation ==> u.consultationStartedAt == Some(now)
    ensures t.consultationStartedAt.None? && status != TokenStatus.InConsultation ==> u.consultationStartedAt.None?
  {
    var started := if status == TokenStatus.InConsultation && t.consultationStartedAt.None? then Some(now) else t.consultationStartedAt;
    t.(status := status, updatedAt := now,
       doctorId := if Truthy(doctorId) then doctorId else t.doctorId,
       consultationStartedAt := started)
  }

  /** A status update changes nothing the numbering depends on. */
  lemma StatusUpdatePreservesNumbering(tokens: seq<OpdToken>, k: int, status: TokenStatus, doctorId: Option<string>, now: Instant)
    requires WellNumbered(tokens) && 0 <= k < |tokens|
    ensures WellNumbered(tokens[k := WithStatus(tokens[k], status, doctorId, now)])
  {
    ReplacePreservesNumbering(tokens, k, WithStatus(tokens[k], status, doctorId, now));
  }

  /** The visit recorded when a token's consultation completes; a token without
      a doctor is credited to 'SYSTEM'. */
  function VisitFor(t: OpdToken, id: string, diagnosis: string, notes: string, now: Instant): (v: Visit)
    ensures v.tokenNumber == t.tokenNumber && v.patientId == t.patientId && v.department == t.department
    ensures v.doctorId == if Truthy(t.doctorId) then t.doctorId.value else "SYSTEM"
    ensures v.diagnosis == diagnosis && v.notes == notes && v.date == now && v.id == id
  {
    Visit(id, t.tokenNumber, t.patientId, if Truthy(t.doctorId) then t.doctorId.value else "SYSTEM",
          t.department, now, diagnosis, notes)
  }

  predicate HasId(t: OpdToken, tokenId: string)
  {
    t.id == tokenId
  }

  /** The filter `t => t.department === department` of `getDepartmentQueue`. */
  function DepartmentIs(department: Department): OpdToken -> bool
  {
    (t: OpdToken) => t.department == department
  }

  /** The lookup `t => t.id === tokenId`. */
  function IdIs(tokenId: string): OpdToken -> bool
  {
    (t: OpdToken) => HasId(t, tokenId)
  }

  class OpdService {
    /** The current token list (the service's `tokensSubject`). */
    var tokens: seq<OpdToken>
    const repo: OpdRepository

    /** Starts from the stored tokens. */
    constructor(repo: OpdRepository)
      ensures this.repo == repo && tokens == repo.GetTokens()
    {
      this.repo := repo;
      tokens := repo.GetTokens();
    }

    /** Re-reads the stored tokens, as the service does on every 'opd_tokens' announcement. */
    method RefreshTokens()
      modifies this`tokens
      ensures tokens == repo.GetTokens()
    {
      tokens := repo.GetTokens();
    }

    /** `generateToken(…)`: issues the next token of the department for the day
        of `now`, appends it to the list and saves the list. The in-memory list
        grows even when the store rejects the write. */
    method GenerateToken(id: string, patientId: string, patientName: string, department: Department,
                         visitType: VisitType, doctorId: Option<string>, priority: Priority,
                         appointmentId: Option<string>, now: Instant, accepted: bool) returns (t: OpdToken)
      modifies this`tokens, repo.store`items, repo.store`events
      ensures t == NewToken(old(tokens), id, patientId, patientName, department, visitType, doctorId, priority, appointmentId, now)
      ensures tokens == old(tokens) + [t]
      ensures t.priority == IssuedPriority(visitType, priority)
      ensures old(WellNumbered(tokens)) ==> WellNumbered(tokens)
      ensures repo.store.Wrote(TokensKey, TokenList(tokens), accepted)
      ensures accepted ==> repo.GetTokens() == tokens
    {
      t := NewToken(tokens, id, patientId, patientName, department, visitType, doctorId, priority, appointmentId, now);
      if WellNumbered(tokens) {
        IssuePreservesNumbering(tokens, id, patientId, patientName, department, visitType, doctorId, priority, appointmentId, now);
      }
      var updated := tokens + [t];
      tokens := updated;
      repo.SaveTokens(updated, accepted);
    }

    /** `getDepartmentQueue(department)`: the queue view of the department's
        tokens, so its order and positions are those `QueueViewContents` and
        `QueueViewPositions` give. */
    function GetDepartmentQueue(department: Department): (q: seq<OpdToken>)
      reads this
      ensures q == QueueView(Filter(tokens, DepartmentIs(department)))
      ensures |q| == |Filter(Filter(tokens, DepartmentIs(department)), IsActive)|
      ensures forall i :: 0 <= i < |q| ==> q[i].department == department && IsActive(q[i])
    {
      var mine := Filter(tokens, DepartmentIs(department));
      QueueViewContents(mine);
      assert forall i :: 0 <= i < |QueueView(mine)| ==> QueueView(mine)[i].department == department by {
        forall i | 0 <= i < |QueueView(mine)|
          ensures QueueView(mine)[i].department == department
        {
          var u := QueueView(mine)[i].(queuePosition := SortQueue(Filter(mine, IsActive))[i].queuePosition);
          var k :| 0 <= k < |mine| && mine[k] == u;
        }
      }
      QueueView(mine)
    }

    /** `getAllQueues()`: the queue view of every token. */
    function GetAllQueues(): (q: seq<OpdToken>)
      reads this
      ensures q == QueueView(tokens)
      ensures |q| == |Filter(tokens, IsActive)|
      ensures forall t :: t in tokens && IsActive(t) ==> exists i :: 0 <= i < |q| && q[i] == t.(queuePosition := q[i].queuePosition)
    {
      QueueViewContents(tokens);
      forall t | t in tokens && IsActive(t)
        ensures exists i :: 0 <= i < |QueueView(tokens)| && QueueView(tokens)[i] == t.(queuePosition := QueueView(tokens)[i].queuePosition)
      {
        QueueViewComplete(tokens, t);
      }
      QueueView(tokens)
    }

    /** `getDoctorQueue(doctorId, department)`. */
    function GetDoctorQueue(doctorId: string, department: Option<Department>): (q: seq<OpdToken>)
      reads this
      ensures q == DoctorQueue(tokens, doctorId, department)
      ensures forall t :: t in q ==> IsActive(t) && InDoctorQueue(t, doctorId, department)
      ensures forall t :: t in tokens && IsActive(t) && InDoctorQueue(t, doctorId, department) ==>
        exists i :: 0 <= i < |q| && q[i] == t.(queuePosition := q[i].queuePosition)
    {
      DoctorQueueSound(tokens, doctorId, department);
      forall t | t in tokens && IsActive(t) && InDoctorQueue(t, doctorId, department)
        ensures exists i :: (0 <= i < |DoctorQueue(tokens, doctorId, department)| &&
          DoctorQueue(tokens, doctorId, department)[i] == t.(queuePosition := DoctorQueue(tokens, doctorId, department)[i].queuePosition))
      {
        DoctorQueueComplete(tokens, doctorId, department, t);
      }
      DoctorQueue(tokens, doctorId, department)
    }

    /** `getTokenById(id)`. */
    function GetTokenById(tokenId: string): (r: Option<OpdToken>)
      reads this
      ensures r.Some? <==> exists i :: 0 <= i < |tokens| && tokens[i].id == tokenId
      ensures r.Some? ==> r.value in tokens && r.value.id == tokenId
      ensures r.Some? ==> exists i :: 0 <= i < |tokens| && tokens[i] == r.value && forall j :: 0 <= j < i ==> tokens[j].id != tokenId
    {
      FindFirst(tokens, IdIs(tokenId));
      Find(tokens, IdIs(tokenId))
    }

    /** `hasCompletedVisitToday(patientId)`: some token of the patient created
        on `today` is completed. */
    predicate HasCompletedVisitToday(patientId: string, today: Day)
      reads this
    {
      exists i :: 0 <= i < |tokens| && tokens[i].patientId == patientId
        && tokens[i].status == TokenStatus.Completed && tokens[i].createdAt.day == today
    }

    /** `updateTokenStatus(tokenId, status, doctorId)`: an unknown id changes
        nothing; otherwise only the first token with that id is replaced, by
        `WithStatus`, and the list is saved. No transition rule is checked. */
    method UpdateTokenStatus(tokenId: string, status: TokenStatus, doctorId: Option<string>, now: Instant, accepted: bool)
      modifies this`tokens, repo.store`items, repo.store`events
      ensures var k := FindIndex(old(tokens), IdIs(tokenId));
        && (k == -1 ==> tokens == old(tokens) && unchanged(repo.store))
        && (k != -1 ==> tokens == old(tokens)[k := WithStatus(old(tokens)[k], status, doctorId, now)]
                        && repo.store.Wrote(TokensKey, TokenList(tokens), accepted)
                        && repo.GetTokens() == (if accepted then tokens else old(repo.GetTokens())))
      ensures repo.GetVisits() == old(repo.GetVisits())
      ensures old(WellNumbered(tokens)) ==> WellNumbered(tokens)
    {
      var k := FindIndex(tokens, IdIs(tokenId));
      if k != -1 {
        var updated := tokens[k := WithStatus(tokens[k], status, doctorId, now)];
        if WellNumbered(tokens) {
          StatusUpdatePreservesNumbering(tokens, k, status, doctorId, now);
        }
        tokens := updated;
        assert repo.GetTokens() == old(repo.GetTokens()) && repo.GetVisits() == old(repo.GetVisits());
        repo.SaveTokens(updated, accepted);
      }
    }

    /** `completeVisit(tokenId, diagnosis, notes)`: fails, changing nothing,
        for an unknown token. Otherwise the token becomes COMPLETED and one
        visit is appended, in two separate writes: the browser may accept
        either, both or neither, so a completed token without its visit can
        be left in the store. `followUp` is the appointment whose status the
        source then sets to COMPLETED asynchronously (see `Appointments`). */
    method CompleteVisit(tokenId: string, diagnosis: string, notes: string, visitId: string, now: Instant,
                         tokensAccepted: bool, visitAccepted: bool)
      returns (r: Result<Visit>, followUp: Option<string>)
      modifies this`tokens, repo.store`items, repo.store`events
      ensures var k := FindIndex(old(tokens), IdIs(tokenId));
        && (k == -1 ==> r == Err(TokenNotFound) && followUp.None? && tokens == old(tokens) && unchanged(repo.store))
        && (k != -1 ==>
              && r == Ok(VisitFor(old(tokens)[k], visitId, diagnosis, notes, now))
              && tokens == old(tokens)[k := WithStatus(old(tokens)[k], TokenStatus.Completed, None, now)]
              && tokens[k].status == TokenStatus.Completed
              && HasCompletedVisitToday(old(tokens)[k].patientId, old(tokens)[k].createdAt.day)
              && followUp == (if Truthy(old(tokens)[k].appointmentId) then old(tokens)[k].appointmentId else None)
              && repo.GetTokens() == (if tokensAccepted then tokens else old(repo.GetTokens()))
              && repo.GetVisits() == (if visitAccepted then old(repo.GetVisits()) + [r.value] else old(repo.GetVisits())))
      ensures old(WellNumbered(tokens)) ==> WellNumbered(tokens)
    {
      var k := FindIndex(tokens, IdIs(tokenId));
      if k == -1 {
        return Err(TokenNotFound), None;
      }
      var token := tokens[k];
      UpdateTokenStatus(tokenId, TokenStatus.Completed, None, now, tokensAccepted);
      ghost var done := WithStatus(token, TokenStatus.Completed, None, now);
      assert tokens[k] == done && done.status == TokenStatus.Completed;
      assert done.patientId == token.patientId && done.createdAt.day == token.createdAt.day;
      assert HasCompletedVisitToday(token.patientId, token.createdAt.day);
      followUp := if Truthy(token.appointmentId) then token.appointmentId else None;
      var visit := VisitFor(token, visitId, diagnosis, notes, now);
      repo.AddVisit(visit, visitAccepted);
      r := Ok(visit);
    }

    /** Whether some token already carries this appointment. */
    predicate CheckedInAlready(appointmentId: string)
      reads this
    {
      exists i :: 0 <= i < |tokens| && tokens[i].appointmentId == Some(appointmentId)
    }

    /** `checkInAppointment(appointment, department)`: refuses an appointment
        that already has a token; otherwise issues an APPOINTMENT token with
        HIGH priority for the appointment's patient and doctor. A second
        check-in of the same appointment is then refused. */
    method CheckInAppointment(appointment: Appointment, department: Department, id: string, now: Instant, accepted: bool)
      returns (r: Result<OpdToken>)
      modifies this`tokens, repo.store`items, repo.store`events
      ensures old(CheckedInAlready(appointment.id)) ==> r == Err(AlreadyCheckedIn) && tokens == old(tokens) && unchanged(repo.store)
      ensures !old(CheckedInAlready(appointment.id)) ==>
        && r == Ok(NewToken(old(tokens), id, appointment.patientId, appointment.patientName, department,
                            FromAppointment, Some(appointment.doctorId), High, Some(appointment.id), now))
        && r.value.visitType == FromAppointment && r.value.priority == High
        && r.value.appointmentId == Some(appointment.id)
        && tokens == old(tokens) + [r.value]
        && repo.store.Wrote(TokensKey, TokenList(tokens), accepted)
      ensures r.Ok? ==> CheckedInAlready(appointment.id)
      ensures old(WellNumbered(tokens)) ==> WellNumbered(tokens)
    {
      if CheckedInAlready(appointment.id) {
        return Err(AlreadyCheckedIn);
      }
      var t := GenerateToken(id, appointment.patientId, appointment.patientName, department, FromAppointment,
                             Some(appointment.doctorId), High, Some(appointment.id), now, accepted);
      assert tokens[|tokens| - 1] == t;
      r := Ok(t);
    }
  }
}
