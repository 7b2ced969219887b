/** The dashboard figures (analytics.service): patient inflow per two-hour
    slot of the day, tokens per department, revenue, workload per department
    and the three headline cards. Each figure is a function of the current
    patient, token and appointment lists; the counting loops of the service
    are methods proved against those functions. */
module Analytics {
  import opened Common
  import opened Strings
  import opened Models
  import opened OpdQueue

  const RevenuePerAppointment: nat := 500
  const SlotLabels: seq<string> := ["09:00", "11:00", "13:00", "15:00", "17:00", "19:00"]
  const GeneralDepartment: string := "General"

  // ---------------------------------------------------------------------
  // Keyed counting: a `Record<string, number>` filled in list order.
  // ---------------------------------------------------------------------

  /** The first position holding `x`, or -1: where `counts[x]` lives. */
  function IndexOf(labels: seq<string>, x: string): (r: int)
    ensures -1 <= r < |labels|
    ensures r != -1 ==> labels[r] == x
    ensures r == -1 <==> x !in labels
  {
    if labels == [] then -1
    else if labels[0] == x then 0
    else
      var k := IndexOf(labels[1..], x);
      if k == -1 then -1 else k + 1
  }

  /** Looking up a key after another is appended. */
  lemma IndexOfAppend(labels: seq<string>, y: string, x: string)
    ensures IndexOf(labels + [y], x)
      == if IndexOf(labels, x) != -1 then IndexOf(labels, x) else if y == x then |labels| else -1
  {
    if labels != [] {
      assert (labels + [y])[1..] == labels[1..] + [y];
      IndexOfAppend(labels[1..], y, x);
    }
  }

  predicate Distinct(labels: seq<string>)
  {
    forall i, j :: 0 <= i < j < |labels| ==> labels[i] != labels[j]
  }

  /** The elements a key's counter counts: those with key `l` satisfying `w`. */
  function KeyedWith<T>(key: T -> string, l: string, w: T -> bool): T -> bool
  {
    (x: T) => key(x) == l && w(x)
  }

  /** The keys of a record filled from `xs`, in order of first appearance. */
  function Labels<T>(xs: seq<T>, key: T -> string): seq<string>
  {
    if xs == [] then []
    else
      var ls := Labels(xs[..|xs| - 1], key);
      if IndexOf(ls, key(xs[|xs| - 1])) == -1 then ls + [key(xs[|xs| - 1])] else ls
  }

  /** `counts[key] = (counts[key] || 0) + inc` for the key at position `k`,
      or for a new key when `k` is -1: the counters grow by `inc` in total. */
  function Bump(ts: seq<nat>, k: int, inc: nat): (r: seq<nat>)
    requires -1 <= k < |ts|
    ensures |r| == if k == -1 then |ts| + 1 else |ts|
    ensures Sum(r) == Sum(ts) + inc
  {
    if k == -1 then
      SumSnoc(ts, inc);
      ts + [inc]
    else
      SumUpdate(ts, k, ts[k] + inc);
      ts[k := ts[k] + inc]
  }

  /** The counter kept for each key: one per element with that key that
      satisfies `w`. */
  function Tallies<T>(xs: seq<T>, key: T -> string, w: T -> bool): (r: seq<nat>)
    ensures |r| == |Labels(xs, key)|
  {
    if xs == [] then []
    else
      var init, x := xs[..|xs| - 1], xs[|xs| - 1];
      var ts := Tallies(init, key, w);
      var k := IndexOf(Labels(init, key), key(x));
      Bump(ts, k, if w(x) then 1 else 0)
  }

  /** The keys are distinct, and they are exactly the keys of the elements. */
  lemma {:induction false} LabelsSpec<T>(xs: seq<T>, key: T -> string)
    ensures Distinct(Labels(xs, key))
    ensures forall i :: 0 <= i < |xs| ==> key(xs[i]) in Labels(xs, key)
    ensures forall l :: l in Labels(xs, key) ==> exists i :: 0 <= i < |xs| && key(xs[i]) == l
  {
    if xs != [] {
      var init, x := xs[..|xs| - 1], xs[|xs| - 1];
      LabelsSpec(init, key);
      forall i | 0 <= i < |xs|
        ensures key(xs[i]) in Labels(xs, key)
      {
        if i < |init| {
          assert xs[i] == init[i];
        }
      }
      forall l | l in Labels(xs, key)
        ensures exists i :: 0 <= i < |xs| && key(xs[i]) == l
      {
        if l in Labels(init, key) {
          var i :| 0 <= i < |init| && key(init[i]) == l;
          assert xs[i] == init[i];
        } else {
          assert key(xs[|xs| - 1]) == l;
        }
      }
    }
  }

  /** One more element: its key is added when it is new. */
  lemma {:induction false} LabelsSnoc<T>(xs: seq<T>, x: T, key: T -> string)
    ensures Labels(xs + [x], key)
      == if IndexOf(Labels(xs, key), key(x)) == -1 then Labels(xs, key) + [key(x)] else Labels(xs, key)
  {
    var ys := xs + [x];
    assert ys[..|ys| - 1] == xs && ys[|ys| - 1] == x;
  }

  /** One more element: its key's counter grows by one when it satisfies `w`,
      starting from zero when the key is new. */
  lemma {:induction false} TalliesSnoc<T>(xs: seq<T>, x: T, key: T -> string, w: T -> bool)
    ensures Tallies(xs + [x], key, w) == Bump(Tallies(xs, key, w), IndexOf(Labels(xs, key), key(x)), if w(x) then 1 else 0)
  {
    var ys := xs + [x];
    assert ys[..|ys| - 1] == xs && ys[|ys| - 1] == x;
  }

  lemma {:induction false} LabelsTalliesSnoc<T>(xs: seq<T>, x: T, key: T -> string, w: T -> bool)
    ensures var ls, k := Labels(xs, key), IndexOf(Labels(xs, key), key(x));
      && Labels(xs + [x], key) == (if k == -1 then ls + [key(x)] else ls)
      && Tallies(xs + [x], key, w) == Bump(Tallies(xs, key, w), k, if w(x) then 1 else 0)
  {
    LabelsSnoc(xs, x, key);
    TalliesSnoc(xs, x, key, w);
  }

  /** Each key's counter is the number of elements with that key satisfying
      `w`; a key that is not in the record has no such element. */
  lemma {:induction false} TalliesCount<T>(xs: seq<T>, key: T -> string, w: T -> bool, l: string)
    ensures var k := IndexOf(Labels(xs, key), l);
      (k != -1 ==> Tallies(xs, key, w)[k] == Count(xs, KeyedWith(key, l, w)))
      && (k == -1 ==> Count(xs, KeyedWith(key, l, w)) == 0)
  {
    var p := KeyedWith(key, l, w);
    if xs != [] {
      var init, x := xs[..|xs| - 1], xs[|xs| - 1];
      assert xs == init + [x];
      TalliesCount(init, key, w, l);
      CountSnoc(init, x, p);
      LabelsSpec(init, key);
      LabelsTalliesSnoc(init, x, key, w);
      var ls0 := Labels(init, key);
      var k0 := IndexOf(ls0, l);
      var kx := IndexOf(ls0, key(x));
      if kx == -1 {
        IndexOfAppend(ls0, key(x), l);
        if k0 != -1 {
          assert key(x) != l;
        }
      } else if k0 != -1 && k0 != kx {
        assert ls0[k0] == l && ls0[kx] == key(x);
      }
    }
  }

  /** The counter of the `j`-th key counts the elements with that key satisfying `w`. */
  lemma TalliesSpec<T>(xs: seq<T>, key: T -> string, w: T -> bool)
    ensures forall j :: 0 <= j < |Labels(xs, key)| ==>
      Tallies(xs, key, w)[j] == Count(xs, KeyedWith(key, Labels(xs, key)[j], w))
  {
    var ls := Labels(xs, key);
    LabelsSpec(xs, key);
    forall j | 0 <= j < |ls|
      ensures Tallies(xs, key, w)[j] == Count(xs, KeyedWith(key, ls[j], w))
    {
      TalliesCount(xs, key, w, ls[j]);
      assert IndexOf(ls, ls[j]) == j;
    }
  }

  /** The counters add up to the number of elements satisfying `w`. */
  lemma {:induction false} TalliesSum<T>(xs: seq<T>, key: T -> string, w: T -> bool)
    ensures Sum(Tallies(xs, key, w)) == Count(xs, w)
  {
    if xs != [] {
      var init, x := xs[..|xs| - 1], xs[|xs| - 1];
      assert xs == init + [x];
      TalliesSum(init, key, w);
      CountSnoc(init, x, w);
      TalliesSnoc(init, x, key, w);
    }
  }

  /** Everything the chart data promises about a record filled from `xs`. */
  lemma RecordFacts<T>(xs: seq<T>, key: T -> string, w: T -> bool)
    ensures |Labels(xs, key)| == |Tallies(xs, key, w)| && Distinct(Labels(xs, key))
    ensures forall i :: 0 <= i < |xs| ==> key(xs[i]) in Labels(xs, key)
    ensures forall j :: 0 <= j < |Labels(xs, key)| ==>
      Tallies(xs, key, w)[j] == Count(xs, KeyedWith(key, Labels(xs, key)[j], w))
    ensures Sum(Tallies(xs, key, w)) == Count(xs, w)
  {
    LabelsSpec(xs, key);
    TalliesSpec(xs, key, w);
    TalliesSum(xs, key, w);
  }

  // ---------------------------------------------------------------------
  // getDepartmentDistribution
  // ---------------------------------------------------------------------

  /** The department a token is counted under: its own, or 'General' when empty. */
  function DeptLabel(t: OpdToken): (d: string)
    ensures d != ""
    ensures t.department != "" ==> d == t.department
    ensures t.department == "" ==> d == GeneralDepartment
  {
    if t.department == "" then GeneralDepartment else t.department
  }

  predicate AnyToken(t: OpdToken) { true }

  /** `getDepartmentDistribution()`: the departments in order of first
      appearance and the number of tokens of each. */
  method DepartmentDistribution(tokens: seq<OpdToken>) returns (labels: seq<string>, data: seq<nat>)
    ensures labels == Labels(tokens, DeptLabel) && data == Tallies(tokens, DeptLabel, AnyToken)
    ensures |labels| == |data| && Distinct(labels)
    ensures forall i :: 0 <= i < |tokens| ==> DeptLabel(tokens[i]) in labels
    ensures forall i :: 0 <= i < |labels| ==> data[i] == Count(tokens, KeyedWith(DeptLabel, labels[i], AnyToken))
    ensures Sum(data) == |tokens|
  {
    labels, data := [], [];
    ghost var seen: seq<OpdToken> := [];
    var i := 0;
    while i < |tokens|
      invariant 0 <= i <= |tokens| && seen == tokens[..i]
      invariant labels == Labels(seen, DeptLabel) && data == Tallies(seen, DeptLabel, AnyToken)
    {
      LabelsTalliesSnoc(seen, tokens[i], DeptLabel, AnyToken);
      var dept := DeptLabel(tokens[i]);
      var k := IndexOf(labels, dept);
      if k == -1 {
        labels := labels + [dept];
      }
      data := Bump(data, k, 1);
      seen := seen + [tokens[i]];
      i := i + 1;
    }
    assert seen == tokens;
    RecordFacts(tokens, DeptLabel, AnyToken);
    FilterAll(tokens, AnyToken);
  }

  // ---------------------------------------------------------------------
  // getWorkloadStats
  // ---------------------------------------------------------------------

  function Dept(t: OpdToken): string { t.department }

  predicate IsCompleted(t: OpdToken) { t.status == TokenStatus.Completed }

  /** One iteration of the workload loop: a new department starts at zero and
      zero, then the token's status raises one of its two counters; the
      record then covers one more token. */
  method WorkloadStep(ghost seen: seq<OpdToken>, labels: seq<string>, pending: seq<nat>, completed: seq<nat>, t: OpdToken)
    returns (labels': seq<string>, pending': seq<nat>, completed': seq<nat>)
    requires labels == Labels(seen, Dept)
    requires pending == Tallies(seen, Dept, IsActive) && completed == Tallies(seen, Dept, IsCompleted)
    ensures labels' == Labels(seen + [t], Dept)
    ensures pending' == Tallies(seen + [t], Dept, IsActive) && completed' == Tallies(seen + [t], Dept, IsCompleted)
  {
    LabelsTalliesSnoc(seen, t, Dept, IsActive);
    LabelsTalliesSnoc(seen, t, Dept, IsCompleted);
    var k := IndexOf(labels, t.department);
    labels' := if k == -1 then labels + [t.department] else labels;
    var waiting, done := 0, 0;
    if t.status == TokenStatus.Completed {
      done := 1;
    } else if t.status == TokenStatus.CheckedIn || t.status == TokenStatus.InConsultation {
      waiting := 1;
    }
    pending' := Bump(pending, k, waiting);
    completed' := Bump(completed, k, done);
  }

  /** The workload loop: the record filled from every token, in list order. */
  method WorkloadRecord(tokens: seq<OpdToken>) returns (labels: seq<string>, pending: seq<nat>, completed: seq<nat>)
    ensures labels == Labels(tokens, Dept)
    ensures pending == Tallies(tokens, Dept, IsActive) && completed == Tallies(tokens, Dept, IsCompleted)
  {
    labels, pending, completed := [], [], [];
    ghost var seen: seq<OpdToken> := [];
    var i := 0;
    while i < |tokens|
      invariant 0 <= i <= |tokens| && seen == tokens[..i]
      invariant labels == Labels(seen, Dept)
      invariant pending == Tallies(seen, Dept, IsActive)
      invariant completed == Tallies(seen, Dept, IsCompleted)
    {
      labels, pending, completed := WorkloadStep(seen, labels, pending, completed, tokens[i]);
      seen := seen + [tokens[i]];
      i := i + 1;
    }
    assert seen == tokens;
  }

  /** `getWorkloadStats()`: per department (its own name, even an empty one),
      the tokens waiting and the tokens completed; no tokens at all gives the
      single label 'General' with zero and zero. */
  method WorkloadStats(tokens: seq<OpdToken>) returns (labels: seq<string>, pending: seq<nat>, completed: seq<nat>)
    ensures tokens == [] ==> labels == [GeneralDepartment] && pending == [0] && completed == [0]
    ensures tokens != [] ==>
      && labels == Labels(tokens, Dept)
      && pending == Tallies(tokens, Dept, IsActive)
      && completed == Tallies(tokens, Dept, IsCompleted)
    ensures |labels| == |pending| == |completed| && Distinct(labels)
    ensures tokens != [] ==> forall i :: 0 <= i < |labels| ==>
      && pending[i] == Count(tokens, KeyedWith(Dept, labels[i], IsActive))
      && completed[i] == Count(tokens, KeyedWith(Dept, labels[i], IsCompleted))
    ensures Sum(pending) == Count(tokens, IsActive) && Sum(completed) == Count(tokens, IsCompleted)
  {
    labels, pending, completed := WorkloadRecord(tokens);
    RecordFacts(tokens, Dept, IsActive);
    RecordFacts(tokens, Dept, IsCompleted);
    if |labels| == 0 {
      labels, pending, completed := [GeneralDepartment], [0], [0];
    }
  }

  // ---------------------------------------------------------------------
  // getDailyVisits
  // ---------------------------------------------------------------------

  /** The two-hour slot an hour of the day falls in: 9-11, 11-13, 13-15,
      15-17, 17-19 and from 19 on; -1 before nine. */
  function SlotOf(hour: nat): (b: int)
    ensures -1 <= b < 6
    ensures b == -1 <==> hour < 9
    ensures 0 <= b < 5 ==> 9 + 2 * b <= hour < 11 + 2 * b
    ensures b == 5 <==> hour >= 19
  {
    if hour < 9 then -1
    else if hour < 11 then 0
    else if hour < 13 then 1
    else if hour < 15 then 2
    else if hour < 17 then 3
    else if hour < 19 then 4
    else 5
  }

  /** The date test of `getDailyVisits`: same day of the month and same month;
      the year is not compared. */
  predicate SameDate(t: Instant, today: Day)
  {
    t.day.dom == today.dom && t.day.month == today.month
  }

  /** The creation times of the patients, then the tokens, then the appointments. */
  function Stamps(patients: seq<Patient>, tokens: seq<OpdToken>, appointments: seq<Appointment>): (r: seq<Instant>)
    ensures |r| == |patients| + |tokens| + |appointments|
    ensures forall i :: 0 <= i < |patients| ==> r[i] == patients[i].createdAt
    ensures forall i :: 0 <= i < |tokens| ==> r[|patients| + i] == tokens[i].createdAt
    ensures forall i :: 0 <= i < |appointments| ==> r[|patients| + |tokens| + i] == appointments[i].createdAt
  {
    seq(|patients|, i requires 0 <= i < |patients| => patients[i].createdAt)
      + seq(|tokens|, i requires 0 <= i < |tokens| => tokens[i].createdAt)
      + seq(|appointments|, i requires 0 <= i < |appointments| => appointments[i].createdAt)
  }

  /** The six slot counters after the given times are counted in order. */
  function Slots(stamps: seq<Instant>, today: Day): (r: seq<nat>)
    ensures |r| == 6
  {
    if stamps == [] then [0, 0, 0, 0, 0, 0]
    else
      var r := Slots(stamps[..|stamps| - 1], today);
      var t := stamps[|stamps| - 1];
      var b := SlotOf(t.hour);
      if SameDate(t, today) && b != -1 then r[b := r[b] + 1] else r
  }

  predicate InSlot(t: Instant, today: Day, b: int)
  {
    SameDate(t, today) && SlotOf(t.hour) == b
  }

  predicate CountedToday(t: Instant, today: Day)
  {
    SameDate(t, today) && t.hour >= 9
  }

  /** Each slot counts the times of today's date in that slot. */
  lemma {:induction false} SlotsCount(stamps: seq<Instant>, today: Day, b: int)
    requires 0 <= b < 6
    ensures Slots(stamps, today)[b] == Count(stamps, (t: Instant) => InSlot(t, today, b))
  {
    if stamps != [] {
      var init, t := stamps[..|stamps| - 1], stamps[|stamps| - 1];
      assert stamps == init + [t];
      SlotsCount(init, today, b);
      CountSnoc(init, t, (t: Instant) => InSlot(t, today, b));
    }
  }

  /** The slots add up to the times of today's date from nine o'clock on, so
      never to more than the number of records. */
  lemma {:induction false} SlotsSum(stamps: seq<Instant>, today: Day)
    ensures Sum(Slots(stamps, today)) == Count(stamps, (t: Instant) => CountedToday(t, today))
    ensures Sum(Slots(stamps, today)) <= |stamps|
  {
    if stamps != [] {
      var init, t := stamps[..|stamps| - 1], stamps[|stamps| - 1];
      assert stamps == init + [t];
      SlotsSum(init, today);
      CountSnoc(init, t, (t: Instant) => CountedToday(t, today));
      var r := Slots(init, today);
      var b := SlotOf(t.hour);
      if SameDate(t, today) && b != -1 {
        SumUpdate(r, b, r[b] + 1);
      }
    } else {
      SumZero(Slots(stamps, today));
    }
  }

  /** Records of the same day and month of any year land in today's slots. */
  lemma {:induction false} SlotsIgnoreYear(stamps: seq<Instant>, today: Day, year: nat)
    ensures Slots(stamps, today) == Slots(stamps, today.(year := year))
  {
    if stamps != [] {
      SlotsIgnoreYear(stamps[..|stamps| - 1], today, year);
    }
  }

  /** One more time counted into the slots. */
  lemma {:induction false} SlotsSnoc(stamps: seq<Instant>, t: Instant, today: Day)
    ensures var r, b := Slots(stamps, today), SlotOf(t.hour);
      Slots(stamps + [t], today) == if SameDate(t, today) && b != -1 then r[b := r[b] + 1] else r
  {
    var s := stamps + [t];
    assert s[..|s| - 1] == stamps && s[|s| - 1] == t;
  }

  /** The body of the counting loop: a time of today's date raises its slot. */
  method CountVisit(counts: array<nat>, regDate: Instant, today: Day, ghost seen: seq<Instant>)
    requires counts.Length == 6 && counts[..] == Slots(seen, today)
    modifies counts
    ensures counts[..] == Slots(seen + [regDate], today)
  {
    SlotsSnoc(seen, regDate, today);
    if regDate.day.dom == today.dom && regDate.day.month == today.month {
      var hour := regDate.hour;
      if hour >= 9 && hour < 11 { counts[0] := counts[0] + 1; }
      else if hour >= 11 && hour < 13 { counts[1] := counts[1] + 1; }
      else if hour >= 13 && hour < 15 { counts[2] := counts[2] + 1; }
      else if hour >= 15 && hour < 17 { counts[3] := counts[3] + 1; }
      else if hour >= 17 && hour < 19 { counts[4] := counts[4] + 1; }
      else if hour >= 19 { counts[5] := counts[5] + 1; }
    }
  }

  /** `getDailyVisits()`: the patient inflow per slot for today's date. */
  method DailyVisits(patients: seq<Patient>, tokens: seq<OpdToken>, appointments: seq<Appointment>, today: Day)
    returns (buckets: seq<nat>)
    ensures buckets == Slots(Stamps(patients, tokens, appointments), today)
    ensures forall b :: 0 <= b < 6 ==>
      buckets[b] == Count(Stamps(patients, tokens, appointments), (t: Instant) => InSlot(t, today, b))
    ensures Sum(buckets) <= |patients| + |tokens| + |appointments|
  {
    var stamps := Stamps(patients, tokens, appointments);
    var counts := new nat[6](_ => 0);
    ghost var seen: seq<Instant> := [];
    var i := 0;
    while i < |stamps|
      invariant 0 <= i <= |stamps| && seen == stamps[..i]
      invariant counts[..] == Slots(seen, today)
    {
      CountVisit(counts, stamps[i], today, seen);
      seen := seen + [stamps[i]];
      i := i + 1;
    }
    assert seen == stamps;
    buckets := counts[..];
    SlotsSum(stamps, today);
    forall b | 0 <= b < 6
      ensures buckets[b] == Count(stamps, (t: Instant) => InSlot(t, today, b))
    {
      SlotsCount(stamps, today, b);
    }
  }

  // ---------------------------------------------------------------------
  // getRevenueStats and getDashboardStats
  // ---------------------------------------------------------------------

  /** `getRevenueStats()`: a flat fee per appointment. */
  function Revenue(appointments: seq<Appointment>): (r: nat)
    ensures r % RevenuePerAppointment == 0 && r / RevenuePerAppointment == |appointments|
  {
    |appointments| * RevenuePerAppointment
  }

  /** Revenue grows by the fee with every appointment. */
  lemma RevenueAdditive(a: seq<Appointment>, b: seq<Appointment>)
    ensures Revenue(a + b) == Revenue(a) + Revenue(b)
  {
  }

  datatype StatCard = StatCard(title: string, value: string, trend: int, trendLabel: string, icon: string, color: string, bg: string)

  /** A consultation counted as done: completed, or under way with a start time. */
  predicate ConsultationDone(t: OpdToken)
  {
    t.status == TokenStatus.Completed || (t.status == TokenStatus.InConsultation && t.consultationStartedAt.Some?)
  }

  function Ids<T(==)>(s: seq<T>, f: T -> string): (r: set<string>)
    ensures forall i :: 0 <= i < |s| ==> f(s[i]) in r
    ensures forall x :: x in r ==> exists i :: 0 <= i < |s| && f(s[i]) == x
  {
    set x | x in s :: f(x)
  }

  /** There are no more distinct ids than records. */
  lemma {:induction false} IdsBound<T>(s: seq<T>, f: T -> string)
    ensures |Ids(s, f)| <= |s|
  {
    if s != [] {
      IdsBound(s[1..], f);
      assert Ids(s, f) == {f(s[0])} + Ids(s[1..], f);
    }
  }

  /** Every patient id known anywhere: patient records, tokens and appointments. */
  function PatientIds(patients: seq<Patient>, tokens: seq<OpdToken>, appointments: seq<Appointment>): (ids: set<string>)
    ensures forall i :: 0 <= i < |patients| ==> patients[i].id in ids
    ensures forall i :: 0 <= i < |tokens| ==> tokens[i].patientId in ids
    ensures forall i :: 0 <= i < |appointments| ==> appointments[i].patientId in ids
    ensures forall x :: x in ids ==>
      || (exists i :: 0 <= i < |patients| && patients[i].id == x)
      || (exists i :: 0 <= i < |tokens| && tokens[i].patientId == x)
      || (exists i :: 0 <= i < |appointments| && appointments[i].patientId == x)
    ensures |ids| <= |patients| + |tokens| + |appointments|
  {
    IdsBound(patients, (p: Patient) => p.id);
    IdsBound(tokens, (t: OpdToken) => t.patientId);
    IdsBound(appointments, (a: Appointment) => a.patientId);
    Ids(patients, (p: Patient) => p.id) + Ids(tokens, (t: OpdToken) => t.patientId)
      + Ids(appointments, (a: Appointment) => a.patientId)
  }

  /** `getDashboardStats()`: total patients, active queue and consultations
      done, each shown as a decimal string that reads back as the count. */
  function DashboardStats(patients: seq<Patient>, tokens: seq<OpdToken>, appointments: seq<Appointment>): (cards: seq<StatCard>)
    ensures |cards| == 3
    ensures cards[0].title == "Total Patients" && cards[0].trend == |PatientIds(patients, tokens, appointments)|
    ensures AllDigits(cards[0].value) && ParseDigits(cards[0].value) == |PatientIds(patients, tokens, appointments)|
    ensures cards[1].title == "Active Queue" && cards[1].trend == 0
    ensures AllDigits(cards[1].value) && ParseDigits(cards[1].value) == Count(tokens, IsActive) == |QueueView(tokens)|
    ensures cards[2].title == "Consultations Done" && cards[2].trend == 100
    ensures AllDigits(cards[2].value) && ParseDigits(cards[2].value) == Count(tokens, ConsultationDone)
  {
    var total := |PatientIds(patients, tokens, appointments)|;
    var active := Count(tokens, IsActive);
    var done := Count(tokens, ConsultationDone);
    ParseNatToString(total);
    ParseNatToString(active);
    ParseNatToString(done);
    QueueViewContents(tokens);
    [ StatCard("Total Patients", NatToString(total), total, "total identified", "pi-users", "blue", "bg-blue-100"),
      StatCard("Active Queue", NatToString(active), 0, "waiting now", "pi-users", "orange", "bg-orange-100"),
      StatCard("Consultations Done", NatToString(done), 100, "completion rate", "pi-check-circle", "green", "bg-green-100") ]
  }
}
