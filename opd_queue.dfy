/** The pure half of the OPD service (opd.service): how a token is numbered
    and prioritised when it is issued, and how a queue is derived from the
    token list (filter by status, sort by priority then arrival, number the
    waiting tokens). */
module OpdQueue {
  import opened Common
  import opened Strings
  import opened Models

  // ---------------------------------------------------------------- numbering

  /** The first three letters of the department, upper-cased. */
  function DeptCode(department: Department): string
  {
    ToUpper(Take(department, 3))
  }

  /** The code is at most three characters, each the upper case of the department's. */
  lemma DeptCodeSpec(department: Department)
    ensures |DeptCode(department)| == if |department| < 3 then |department| else 3
    ensures forall i :: 0 <= i < |DeptCode(department)| ==> DeptCode(department)[i] == Upper(department[i])
  {
  }

  /** The running number of the `(count + 1)`-th token of a day, zero-padded to three digits. */
  function RunningNumber(count: nat): (r: string)
    ensures |r| >= 3 && AllDigits(r) && ParseDigits(r) == count + 1
  {
    PadStartParse(count + 1, 3);
    PadStart(NatToString(count + 1), 3, '0')
  }

  /** `DEP-yyyymmdd-nnn`. */
  function TokenNumber(department: Department, day: Day, count: nat): string
  {
    DeptCode(department) + "-" + DateStamp(day) + "-" + RunningNumber(count)
  }

  /** `r` is `a`, a dash, `b`, a dash and `c`, and each part can be cut back out of it. */
  predicate SplitsAs(r: string, a: string, b: string, c: string)
  {
    && |r| == |a| + |b| + |c| + 2
    && r[..|a|] == a && r[|a|] == '-'
    && r[|a| + 1..|a| + 1 + |b|] == b && r[|a| + 1 + |b|] == '-'
    && r[|a| + 2 + |b|..] == c
  }

  lemma JoinParts(a: string, b: string, c: string)
    ensures SplitsAs(a + "-" + b + "-" + c, a, b, c)
  {
    var r := a + "-" + b + "-" + c;
    assert r[..|a|] == a;
    assert r[|a| + 1..|a| + 1 + |b|] == b;
    assert r[|a| + 2 + |b|..] == c;
  }

  /** A token number splits back into the department code, the day stamp and
      the running number, which reads back as `count + 1`. */
  lemma TokenNumberParts(department: Department, day: Day, count: nat)
    ensures SplitsAs(TokenNumber(department, day, count), DeptCode(department), DateStamp(day), RunningNumber(count))
    ensures AllDigits(RunningNumber(count)) && ParseDigits(RunningNumber(count)) == count + 1
  {
    JoinParts(DeptCode(department), DateStamp(day), RunningNumber(count));
  }

  /** Two numbers issued for the same department and day agree only if they
      were issued at the same count. */
  lemma TokenNumberInjective(department: Department, day: Day, a: nat, b: nat)
    requires TokenNumber(department, day, a) == TokenNumber(department, day, b)
    ensures a == b
  {
    var prefix := DeptCode(department) + "-" + DateStamp(day) + "-";
    assert TokenNumber(department, day, a) == prefix + RunningNumber(a);
    assert TokenNumber(department, day, b) == prefix + RunningNumber(b);
    assert RunningNumber(a) == (prefix + RunningNumber(a))[|prefix|..];
    assert RunningNumber(b) == (prefix + RunningNumber(b))[|prefix|..];
  }

  /** A token counts towards a day's numbering when it belongs to the same
      department and was created on that day. */
  predicate IssuedOn(t: OpdToken, department: Department, day: Day)
  {
    t.department == department && t.createdAt.day == day
  }

  /** The tokens already issued for a department on a day. */
  function TodayTokens(tokens: seq<OpdToken>, department: Department, day: Day): seq<OpdToken>
  {
    Filter(tokens, (t: OpdToken) => IssuedOn(t, department, day))
  }

  /** How many of them are still waiting (checked in, not yet called). */
  function PendingToday(tokens: seq<OpdToken>, department: Department, day: Day): nat
  {
    Count(TodayTokens(tokens, department, day), (t: OpdToken) => t.status == TokenStatus.CheckedIn)
  }

  /** The priority a token is issued with: emergencies are urgent and
      appointments high, whatever was asked for; walk-ins keep the requested one. */
  function IssuedPriority(visitType: VisitType, requested: Priority): (p: Priority)
    ensures visitType == Emergency ==> p == Urgent
    ensures visitType == FromAppointment ==> p == High
    ensures visitType == WalkIn ==> p == requested
  {
    match visitType
    case Emergency => Urgent
    case FromAppointment => High
    case WalkIn => requested
  }

  /** The token `generateToken` issues, given the current token list. Its number
      and its day count both use the local calendar day of `now` (see
      `TokenNumberAsWritten` for the source's mixed days). */
  function NewToken(tokens: seq<OpdToken>, id: string, patientId: string, patientName: string,
                    department: Department, visitType: VisitType, doctorId: Option<string>,
                    priority: Priority, appointmentId: Option<string>, now: Instant): (t: OpdToken)
    ensures t.status == TokenStatus.CheckedIn && t.createdAt == now && t.department == department
    ensures t.tokenNumber == TokenNumber(department, now.day, |TodayTokens(tokens, department, now.day)|)
    ensures t.queuePosition == PendingToday(tokens, department, now.day) + 1
    ensures t.queuePosition <= |TodayTokens(tokens, department, now.day)| + 1
  {
    OpdToken(
      id := id,
      tokenNumber := TokenNumber(department, now.day, |TodayTokens(tokens, department, now.day)|),
      department := department,
      patientId := patientId,
      patientName := patientName,
      doctorId := doctorId,
      visitType := visitType,
      status := TokenStatus.CheckedIn,
      priority := IssuedPriority(visitType, priority),
      appointmentId := appointmentId,
      queuePosition := PendingToday(tokens, department, now.day) + 1,
      consultationStartedAt := None,
      createdAt := now,
      updatedAt := now)
  }

  /** The `i`-th token carries the number it was issued with: the count of
      earlier tokens of its department and day. */
  ghost predicate NumberedAt(tokens: seq<OpdToken>, i: nat)
    requires i < |tokens|
  {
    tokens[i].tokenNumber
      == TokenNumber(tokens[i].department, tokens[i].createdAt.day,
                     |TodayTokens(tokens[..i], tokens[i].department, tokens[i].createdAt.day)|)
  }

  /** Every token carries the number it was issued with, checked from the
      last token back. This holds of any list built by `generateToken` and
      changed only by status updates. */
  ghost predicate WellNumbered(tokens: seq<OpdToken>)
  {
    tokens == [] || (WellNumbered(tokens[..|tokens| - 1]) && NumberedAt(tokens, |tokens| - 1))
  }

  /** A token's numbering is the same in any prefix that holds it. */
  lemma NumberedInPrefix(tokens: seq<OpdToken>, n: nat, i: nat)
    requires i < n <= |tokens|
    ensures NumberedAt(tokens[..n], i) <==> NumberedAt(tokens, i)
  {
    assert tokens[..n][..i] == tokens[..i] && tokens[..n][i] == tokens[i];
  }

  /** Each token of a well-numbered list is numbered. */
  lemma {:induction false} WellNumberedAt(tokens: seq<OpdToken>, i: nat)
    requires WellNumbered(tokens) && i < |tokens|
    ensures NumberedAt(tokens, i)
  {
    var n := |tokens| - 1;
    if i < n {
      WellNumberedAt(tokens[..n], i);
      NumberedInPrefix(tokens, n, i);
      assert NumberedAt(tokens, i);
    } else {
      assert i == n;
      assert NumberedAt(tokens, n);
    }
  }

  /** A list whose every token is numbered is well numbered. */
  lemma {:induction false} AllNumbered(tokens: seq<OpdToken>)
    requires forall i :: 0 <= i < |tokens| ==> NumberedAt(tokens, i)
    ensures WellNumbered(tokens)
  {
    if tokens != [] {
      var n := |tokens| - 1;
      forall i | 0 <= i < n
        ensures NumberedAt(tokens[..n], i)
      {
        NumberedInPrefix(tokens, n, i);
      }
      AllNumbered(tokens[..n]);
    }
  }

  /** A token appended with the next number of its department and day is numbered. */
  lemma AppendNumbered(tokens: seq<OpdToken>, t: OpdToken)
    requires t.tokenNumber == TokenNumber(t.department, t.createdAt.day, |TodayTokens(tokens, t.department, t.createdAt.day)|)
    ensures NumberedAt(tokens + [t], |tokens|)
  {
    assert (tokens + [t])[..|tokens|] == tokens;
  }

  /** Issuing a token keeps the list well numbered. */
  lemma IssuePreservesNumbering(tokens: seq<OpdToken>, id: string, patientId: string, patientName: string,
                                department: Department, visitType: VisitType, doctorId: Option<string>,
                                priority: Priority, appointmentId: Option<string>, now: Instant)
    requires WellNumbered(tokens)
    ensures WellNumbered(tokens + [NewToken(tokens, id, patientId, patientName, department, visitType, doctorId, priority, appointmentId, now)])
  {
    var t := NewToken(tokens, id, patientId, patientName, department, visitType, doctorId, priority, appointmentId, now);
    AppendNumbered(tokens, t);
    assert (tokens + [t])[..|tokens|] == tokens;
  }

  /** Two lists that agree on every token's department and creation time count alike. */
  lemma {:induction false} TodayTokensSameShape(a: seq<OpdToken>, b: seq<OpdToken>, department: Department, day: Day)
    requires |a| == |b|
    requires forall i :: 0 <= i < |a| ==> a[i].department == b[i].department && a[i].createdAt == b[i].createdAt
    ensures |TodayTokens(a, department, day)| == |TodayTokens(b, department, day)|
  {
    if a != [] {
      TodayTokensSameShape(a[1..], b[1..], department, day);
    }
  }

  /** Replacing the `k`-th token by one with the same number, department and
      creation time leaves the `i`-th token numbered. */
  lemma ReplaceKeepsNumbered(tokens: seq<OpdToken>, k: nat, t: OpdToken, i: nat)
    requires k < |tokens| && i < |tokens| && NumberedAt(tokens, i)
    requires t.tokenNumber == tokens[k].tokenNumber && t.department == tokens[k].department
    requires t.createdAt == tokens[k].createdAt
    ensures NumberedAt(tokens[k := t], i)
  {
    var ts := tokens[k := t];
    TodayTokensSameShape(ts[..i], tokens[..i], ts[i].department, ts[i].createdAt.day);
  }

  /** Replacing a token by one with the same number, department and creation
      time keeps the list well numbered. */
  lemma ReplacePreservesNumbering(tokens: seq<OpdToken>, k: int, t: OpdToken)
    requires WellNumbered(tokens)
    requires 0 <= k < |tokens|
    requires t.tokenNumber == tokens[k].tokenNumber && t.department == tokens[k].department
    requires t.createdAt == tokens[k].createdAt
    ensures WellNumbered(tokens[k := t])
  {
    var ts := tokens[k := t];
    forall i | 0 <= i < |ts|
      ensures NumberedAt(ts, i)
    {
      WellNumberedAt(tokens, i);
      ReplaceKeepsNumbered(tokens, k, t, i);
    }
    AllNumbered(ts);
  }

  /** In a well-numbered list, no two tokens of the same department and day share a number. */
  lemma WellNumberedDistinct(tokens: seq<OpdToken>, i: int, j: int)
    requires WellNumbered(tokens)
    requires 0 <= i < j < |tokens|
    requires tokens[i].department == tokens[j].department
    requires tokens[i].createdAt.day == tokens[j].createdAt.day
    ensures tokens[i].tokenNumber != tokens[j].tokenNumber
  {
    WellNumberedAt(tokens, i);
    WellNumberedAt(tokens, j);
    var d, day := tokens[i].department, tokens[i].createdAt.day;
    FilterGrows(tokens, i, j, (t: OpdToken) => IssuedOn(t, d, day));
    assert |TodayTokens(tokens[..j], d, day)| > |TodayTokens(tokens[..i], d, day)|;
    if tokens[i].tokenNumber == tokens[j].tokenNumber {
      TokenNumberInjective(d, day, |TodayTokens(tokens[..i], d, day)|, |TodayTokens(tokens[..j], d, day)|);
    }
  }

  /** The number the source builds: the day stamp from the UTC date of `now`,
      the running count from the tokens created on its local date. */
  function TokenNumberAsWritten(tokens: seq<OpdToken>, department: Department, now: Instant): (r: string)
    ensures now.day == now.utcDay ==> r == TokenNumber(department, now.day, |TodayTokens(tokens, department, now.day)|)
  {
    TokenNumber(department, now.utcDay, |TodayTokens(tokens, department, now.day)|)
  }

  /** Shortly after local midnight east of UTC the two dates differ, the local
      count restarts, and the first token of the new local day repeats the
      number of the first token of the previous one. */
  lemma TokenNumberAsWrittenRepeats()
    ensures
      var jan1 := Day(2025, 1, 1);
      var jan2 := Day(2025, 1, 2);
      var morning := Instant(jan1, jan1, 10, 1735705800000);
      var firstToken := NewToken([], "t1", "p1", "A", "GENERAL", WalkIn, None, Normal, None, morning);
      var nextNight := Instant(jan2, jan1, 1, 1735759800000);
      TokenNumberAsWritten([], "GENERAL", morning) == TokenNumberAsWritten([firstToken], "GENERAL", nextNight)
  {
    var jan1 := Day(2025, 1, 1);
    var jan2 := Day(2025, 1, 2);
    var morning := Instant(jan1, jan1, 10, 1735705800000);
    var firstToken := NewToken([], "t1", "p1", "A", "GENERAL", WalkIn, None, Normal, None, morning);
    assert firstToken.createdAt == morning;
    assert !IssuedOn(firstToken, "GENERAL", jan2);
    assert TodayTokens([firstToken], "GENERAL", jan2) == [];
    assert TodayTokens([], "GENERAL", jan1) == [];
  }

  // ---------------------------------------------------------------- queues

  /** The statuses a queue shows. */
  predicate IsActive(t: OpdToken)
  {
    t.status == TokenStatus.CheckedIn || t.status == TokenStatus.InConsultation
  }

  /** URGENT = 0, HIGH = 1, NORMAL = 2. */
  function Rank(p: Priority): nat
  {
    match p
    case Urgent => 0
    case High => 1
    case Normal => 2
  }

  /** The sort comparator of `processQueue` does not put `a` after `b`:
      higher priority first, then earlier creation first. */
  predicate NotAfter(a: OpdToken, b: OpdToken)
  {
    if a.priority != b.priority then Rank(a.priority) < Rank(b.priority)
    else a.createdAt.epochMs <= b.createdAt.epochMs
  }

  predicate Sorted(s: seq<OpdToken>)
  {
    forall i, j :: 0 <= i < j < |s| ==> NotAfter(s[i], s[j])
  }

  /** Inserts `t` before the first element it does not come after. */
  function Insert(t: OpdToken, s: seq<OpdToken>): seq<OpdToken>
  {
    if s == [] then [t]
    else if NotAfter(t, s[0]) then [t] + s
    else [s[0]] + Insert(t, s[1..])
  }

  /** The queue order: an insertion sort by `NotAfter`, the source's comparator
      (priority rank, then creation time). */
  function SortQueue(s: seq<OpdToken>): seq<OpdToken>
  {
    if s == [] then [] else Insert(s[0], SortQueue(s[1..]))
  }

  lemma {:induction false} InsertMultiset(t: OpdToken, s: seq<OpdToken>)
    ensures multiset(Insert(t, s)) == multiset(s) + multiset{t}
  {
    if s != [] {
      assert s == [s[0]] + s[1..];
      if !NotAfter(t, s[0]) {
        InsertMultiset(t, s[1..]);
      }
    }
  }

  lemma {:induction false} InsertSorted(t: OpdToken, s: seq<OpdToken>)
    requires Sorted(s)
    ensures Sorted(Insert(t, s))
  {
    if s != [] && !NotAfter(t, s[0]) {
      var rest := Insert(t, s[1..]);
      InsertSorted(t, s[1..]);
      InsertMultiset(t, s[1..]);
      assert NotAfter(s[0], t);
      forall k | 0 <= k < |rest|
        ensures NotAfter(s[0], rest[k])
      {
        assert rest[k] in multiset(rest);
        if rest[k] != t {
          assert rest[k] in multiset(s[1..]);
          var m :| 0 <= m < |s[1..]| && s[1..][m] == rest[k];
          assert s[m + 1] == rest[k];
        }
      }
      assert Insert(t, s) == [s[0]] + rest;
    } else if s != [] {
      forall j | 0 <= j < |s|
        ensures NotAfter(t, s[j])
      {
        if j > 0 {
          assert NotAfter(s[0], s[j]);
        }
      }
    }
  }

  /** Sorting a queue orders it and loses or adds no token. */
  lemma {:induction false} SortQueueSpec(s: seq<OpdToken>)
    ensures Sorted(SortQueue(s))
    ensures multiset(SortQueue(s)) == multiset(s)
  {
    if s != [] {
      SortQueueSpec(s[1..]);
      InsertSorted(s[0], SortQueue(s[1..]));
      InsertMultiset(s[0], SortQueue(s[1..]));
      assert s == [s[0]] + s[1..];
      assert multiset(s) == multiset{s[0]} + multiset(s[1..]);
    }
  }

  /** How many tokens of `s` are not in consultation: the tokens `processQueue`'s
      `pendingCounter` has counted after passing `s`. */
  function Pending(s: seq<OpdToken>): (n: nat)
    ensures n <= |s|
  {
    if s == [] then 0
    else Pending(s[..|s| - 1]) + (if s[|s| - 1].status == TokenStatus.InConsultation then 0 else 1)
  }

  /** Assigns positions along a sorted queue: a token in consultation gets 0,
      each other token the next waiting position. */
  function Number(s: seq<OpdToken>): (r: seq<OpdToken>)
    ensures |r| == |s|
  {
    if s == [] then []
    else
      var last := s[|s| - 1];
      Number(s[..|s| - 1])
        + [last.(queuePosition := if last.status == TokenStatus.InConsultation then 0 else Pending(s[..|s| - 1]) + 1)]
  }

  /** The `i`-th numbered token is the `i`-th token with a position that
      depends only on the tokens before it. */
  lemma {:induction false} NumberAt(s: seq<OpdToken>, i: nat)
    requires i < |s|
    ensures Number(s)[i] == s[i].(queuePosition := Number(s)[i].queuePosition)
    ensures Number(s)[i].queuePosition == if s[i].status == TokenStatus.InConsultation then 0 else Pending(s[..i]) + 1
  {
    var init := s[..|s| - 1];
    if i < |init| {
      NumberAt(init, i);
      assert Number(s)[i] == Number(init)[i];
      assert init[..i] == s[..i] && init[i] == s[i];
    }
  }

  /** Numbering works token by token: each position depends only on the tokens before it. */
  lemma NumberSpec(s: seq<OpdToken>)
    ensures forall i :: 0 <= i < |s| ==> Number(s)[i] == s[i].(queuePosition := Number(s)[i].queuePosition)
    ensures forall i :: 0 <= i < |s| && s[i].status == TokenStatus.InConsultation ==> Number(s)[i].queuePosition == 0
    ensures forall i :: 0 <= i < |s| && s[i].status != TokenStatus.InConsultation ==> Number(s)[i].queuePosition == Pending(s[..i]) + 1
  {
    forall i | 0 <= i < |s|
      ensures Number(s)[i] == s[i].(queuePosition := Number(s)[i].queuePosition)
      ensures Number(s)[i].queuePosition == if s[i].status == TokenStatus.InConsultation then 0 else Pending(s[..i]) + 1
    {
      NumberAt(s, i);
    }
  }

  /** `processQueue`: the active tokens, sorted, with their queue positions. */
  function QueueView(tokens: seq<OpdToken>): seq<OpdToken>
  {
    Number(SortQueue(Filter(tokens, IsActive)))
  }

  /** `processQueue(tokens)`: keeps the active tokens, sorts them, then walks
      the sorted list with a counter of waiting tokens to assign positions. */
  method ProcessQueue(tokens: seq<OpdToken>) returns (q: seq<OpdToken>)
    ensures q == QueueView(tokens)
  {
    var sorted := SortQueue(Filter(tokens, IsActive));
    var pendingCounter := 0;
    q := [];
    var i := 0;
    while i < |sorted|
      invariant 0 <= i <= |sorted|
      invariant q == Number(sorted[..i])
      invariant pendingCounter == Pending(sorted[..i])
    {
      var token := sorted[i];
      assert sorted[..i + 1][..i] == sorted[..i];
      if token.status == TokenStatus.InConsultation {
        q := q + [token.(queuePosition := 0)];
      } else {
        pendingCounter := pendingCounter + 1;
        q := q + [token.(queuePosition := pendingCounter)];
      }
      i := i + 1;
    }
    assert sorted[..i] == sorted;
  }

  /** The queue holds exactly the active tokens, each with only its position
      changed, in priority-then-arrival order. */
  lemma QueueViewContents(tokens: seq<OpdToken>)
    ensures |QueueView(tokens)| == |Filter(tokens, IsActive)|
    ensures forall i :: 0 <= i < |QueueView(tokens)| ==>
      IsActive(QueueView(tokens)[i]) && QueueView(tokens)[i].(queuePosition := SortQueue(Filter(tokens, IsActive))[i].queuePosition) in tokens
    ensures multiset(SortQueue(Filter(tokens, IsActive))) == multiset(Filter(tokens, IsActive))
    ensures forall i, j :: 0 <= i < j < |QueueView(tokens)| ==> NotAfter(QueueView(tokens)[i], QueueView(tokens)[j])
  {
    var active := Filter(tokens, IsActive);
    var sorted := SortQueue(active);
    var q := QueueView(tokens);
    SortQueueSpec(active);
    assert |sorted| == |active| by {
      assert |multiset(sorted)| == |multiset(active)|;
    }
    forall i | 0 <= i < |q|
      ensures IsActive(q[i]) && q[i].(queuePosition := sorted[i].queuePosition) in tokens
    {
      NumberAt(sorted, i);
      assert q[i].(queuePosition := sorted[i].queuePosition) == sorted[i];
      assert sorted[i] in multiset(active);
    }
    forall i, j | 0 <= i < j < |q|
      ensures NotAfter(q[i], q[j])
    {
      NumberAt(sorted, i);
      NumberAt(sorted, j);
      assert NotAfter(sorted[i], sorted[j]);
    }
  }

  /** Every active token of the input appears in the queue, with some position. */
  lemma QueueViewComplete(tokens: seq<OpdToken>, t: OpdToken)
    requires t in tokens && IsActive(t)
    ensures exists i :: 0 <= i < |QueueView(tokens)| && QueueView(tokens)[i] == t.(queuePosition := QueueView(tokens)[i].queuePosition)
  {
    var active := Filter(tokens, IsActive);
    var sorted := SortQueue(active);
    SortQueueSpec(active);
    NumberSpec(sorted);
    assert t in multiset(sorted);
    var i :| 0 <= i < |sorted| && sorted[i] == t;
    assert QueueView(tokens)[i] == t.(queuePosition := QueueView(tokens)[i].queuePosition);
  }

  /** Positions: 0 in consultation; waiting tokens numbered 1, 2, 3, … in queue order. */
  lemma QueueViewPositions(tokens: seq<OpdToken>)
    ensures forall i :: 0 <= i < |QueueView(tokens)| && QueueView(tokens)[i].status == TokenStatus.InConsultation ==>
      QueueView(tokens)[i].queuePosition == 0
    ensures forall i :: 0 <= i < |QueueView(tokens)| && QueueView(tokens)[i].status == TokenStatus.CheckedIn ==>
      QueueView(tokens)[i].queuePosition == Pending(QueueView(tokens)[..i]) + 1
  {
    var sorted := SortQueue(Filter(tokens, IsActive));
    var q := QueueView(tokens);
    NumberSpec(sorted);
    forall i | 0 <= i < |q|
      ensures Pending(q[..i]) == Pending(sorted[..i])
    {
      PendingSameStatus(q[..i], sorted[..i]);
    }
  }

  lemma {:induction false} PendingSameStatus(a: seq<OpdToken>, b: seq<OpdToken>)
    requires |a| == |b| && forall i :: 0 <= i < |a| ==> a[i].status == b[i].status
    ensures Pending(a) == Pending(b)
  {
    if a != [] {
      PendingSameStatus(a[..|a| - 1], b[..|b| - 1]);
    }
  }

  /** A doctor's queue admits a token assigned to that doctor, or an unassigned
      token of the given department; with no department, no unassigned token. */
  predicate InDoctorQueue(t: OpdToken, doctorId: string, department: Option<Department>)
  {
    if t.doctorId == Some(doctorId) then true
    else if !Truthy(t.doctorId) && Truthy(department) then t.department == department.value
    else false
  }

  /** The filter of `getDoctorQueue`. */
  function DoctorFilter(doctorId: string, department: Option<Department>): OpdToken -> bool
  {
    (t: OpdToken) => InDoctorQueue(t, doctorId, department)
  }

  /** `getDoctorQueue(doctorId, department)` over a token list. */
  function DoctorQueue(tokens: seq<OpdToken>, doctorId: string, department: Option<Department>): seq<OpdToken>
  {
    QueueView(Filter(tokens, DoctorFilter(doctorId, department)))
  }

  /** The doctor's queue shows only active tokens assigned to the doctor or,
      when a department is given, left unassigned in it. */
  lemma DoctorQueueSound(tokens: seq<OpdToken>, doctorId: string, department: Option<Department>)
    ensures forall q :: q in DoctorQueue(tokens, doctorId, department) ==>
      && IsActive(q)
      && (q.doctorId == Some(doctorId) || (Truthy(department) && !Truthy(q.doctorId) && q.department == department.value))
  {
    var mine := Filter(tokens, DoctorFilter(doctorId, department));
    var active := Filter(mine, IsActive);
    var sorted := SortQueue(active);
    var q := QueueView(mine);
    SortQueueSpec(active);
    forall i | 0 <= i < |q|
      ensures IsActive(q[i]) && InDoctorQueue(q[i], doctorId, department)
    {
      NumberAt(sorted, i);
      assert sorted[i] in multiset(active);
      assert sorted[i] in mine;
    }
  }

  /** Every active token assigned to the doctor, or unassigned in the given
      department, is in the doctor's queue. */
  lemma DoctorQueueComplete(tokens: seq<OpdToken>, doctorId: string, department: Option<Department>, t: OpdToken)
    requires t in tokens && IsActive(t)
    requires t.doctorId == Some(doctorId) || (Truthy(department) && !Truthy(t.doctorId) && t.department == department.value)
    ensures exists i :: (0 <= i < |DoctorQueue(tokens, doctorId, department)| &&
      DoctorQueue(tokens, doctorId, department)[i] == t.(queuePosition := DoctorQueue(tokens, doctorId, department)[i].queuePosition))
  {
    var p := DoctorFilter(doctorId, department);
    var mine := Filter(tokens, p);
    assert DoctorQueue(tokens, doctorId, department) == QueueView(mine);
    var k :| 0 <= k < |tokens| && tokens[k] == t;
    assert p(tokens[k]);
    assert t in mine;
    QueueViewComplete(mine, t);
  }
}
