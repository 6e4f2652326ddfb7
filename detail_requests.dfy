/**
 * The pure part of the student detail page: the two date-range records and their field
 * updates, the fixed list of bill months, the request paths, and the all-or-nothing
 * combination of the bill responses.
 */
module DetailRequests {

  import opened Wrappers
  import Text

  /** The `name` of a date input: which bound of a range it edits. */
  datatype RangeField = Start | End

  /** A `{start, end}` range; the bounds are the inputs' strings, neither checked nor ordered. */
  datatype DateRange = DateRange(start: string, end: string) {

    function Get(field: RangeField): string {
      match field
      case Start => start
      case End => end
    }

    /** `{ ...range, [name]: value }`: the named bound becomes `value`, the other stays. */
    function With(field: RangeField, value: string): (r: DateRange)
      ensures r.Get(field) == value
      ensures forall other :: other != field ==> r.Get(other) == Get(other)
    {
      match field
      case Start => this.(start := value)
      case End => this.(end := value)
    }
  }

  const InitialServiceRange: DateRange := DateRange("2025-01-01", "2025-04-18")

  const InitialGuestRange: DateRange := DateRange("2025-04-01", "2025-04-18")

  /** The months whose bills are requested, oldest first. */
  const Months: seq<string> := [
    "2024-01", "2024-02", "2024-03", "2024-04", "2024-05", "2024-06",
    "2024-07", "2024-08", "2024-09", "2024-10", "2024-11", "2024-12",
    "2025-01", "2025-02", "2025-03", "2025-04"
  ]

  /**
   * For a "YYYY-MM" label with a month from 01 to 12, the number of months from January of
   * year 0 to that month; None for anything else.
   */
  function MonthOrdinal(name: string): Option<int> {
    if |name| == 7 && name[4] == '-' && Text.AllDigits(name[..4]) && Text.AllDigits(name[5..])
       && 1 <= Text.ParseNat(name[5..]) <= 12
    then Some(Text.ParseNat(name[..4]) * 12 + Text.ParseNat(name[5..]) - 1)
    else None
  }

  /** The month list is sixteen well-formed, consecutive months from 2024-01 to 2025-04. */
  lemma MonthsConsecutive()
    ensures |Months| == 16
    ensures forall i :: 0 <= i < |Months| ==> MonthOrdinal(Months[i]) == Some(2024 * 12 + i)
  {
    YearValues();
    forall i | 0 <= i < |Months|
      ensures MonthOrdinal(Months[i]) == Some(2024 * 12 + i)
    {
      MonthAt(i);
    }
  }

  lemma MonthAt(i: nat)
    requires i < |Months|
    requires Text.ParseNat("2024") == 2024 && Text.ParseNat("2025") == 2025
    ensures MonthOrdinal(Months[i]) == Some(2024 * 12 + i)
  {
    var name := Months[i];
    assert |name| == 7 && name[4] == '-';
    assert name[..4] == if i < 12 then "2024" else "2025";
    TwoDigitValue(name[5..]);
  }

  lemma YearValues()
    ensures Text.ParseNat("2024") == 2024 && Text.ParseNat("2025") == 2025
  {
    assert "2024"[..3] == "202" && "202"[..2] == "20" && "20"[..1] == "2" && "2"[..0] == [];
    assert "2025"[..3] == "202";
  }

  lemma TwoDigitValue(digits: string)
    requires |digits| == 2
    ensures Text.ParseNat(digits) == Text.DigitValue(digits[0]) * 10 + Text.DigitValue(digits[1])
  {
    assert digits[..1] == [digits[0]] && digits[..1][..0] == [];
    assert Text.ParseNat(digits[..1]) == Text.DigitValue(digits[0]);
  }

  /** A well-formed month label contains no '/'. */
  lemma MonthLabelHasNoSlash(name: string)
    requires MonthOrdinal(name).Some?
    ensures '/' !in name
  {
    forall k | 0 <= k < |name|
      ensures name[k] != '/'
    {
      if k < 4 {
        assert name[..4][k] == name[k];
      } else if k > 4 {
        assert name[5..][k - 5] == name[k];
      }
    }
  }

  /** `/student/{studentId}`. */
  function StudentPath(studentId: string): string {
    "/student/" + studentId
  }

  /** `/bill/{studentId}/{month}`. */
  function BillPath(studentId: string, month: string): string {
    "/bill/" + studentId + "/" + month
  }

  /** `months.map(...)`: one bill path per month, in the order of the month list. */
  function BillPaths(studentId: string): seq<string> {
    seq(|Months|, i requires 0 <= i < |Months| => BillPath(studentId, Months[i]))
  }

  /** `/service-usage/{studentId}/{start}/{end}`. */
  function ServiceUsagePath(studentId: string, range: DateRange): string {
    "/service-usage/" + studentId + "/" + range.start + "/" + range.end
  }

  /** `/guest-visits/{studentId}/{start}/{end}`. */
  function GuestVisitsPath(studentId: string, range: DateRange): string {
    "/guest-visits/" + studentId + "/" + range.start + "/" + range.end
  }

  /** A bill path splits back into its segments when neither the id nor the month holds a '/'. */
  lemma BillPathSegments(studentId: string, month: string)
    requires '/' !in studentId && '/' !in month
    ensures Text.Split(BillPath(studentId, month), '/') == ["", "bill", studentId, month]
  {
    var parts := ["", "bill", studentId, month];
    assert Text.Join(parts[3..], '/') == month;
    assert Text.Join(parts[2..], '/') == studentId + "/" + month;
    assert Text.Join(parts[1..], '/') == "bill/" + studentId + "/" + month;
    assert Text.Join(parts, '/') == BillPath(studentId, month);
    assert '/' !in "bill";
    Text.SplitJoin(parts, '/');
  }

  /**
   * The bill requests follow the month list, one per month, and no two of them coincide,
   * whatever the student id holds.
   */
  lemma BillRequests(studentId: string)
    ensures |BillPaths(studentId)| == 16
    ensures forall i :: 0 <= i < |BillPaths(studentId)| ==> BillPaths(studentId)[i] == BillPath(studentId, Months[i])
    ensures forall i, j :: 0 <= i < j < |BillPaths(studentId)| ==> BillPaths(studentId)[i] != BillPaths(studentId)[j]
  {
    MonthsConsecutive();
    var paths := BillPaths(studentId);
    forall i, j | 0 <= i < j < |paths|
      ensures paths[i] != paths[j]
    {
      assert MonthOrdinal(Months[i]) != MonthOrdinal(Months[j]);
      assert |Months[i]| == 7 && |Months[j]| == 7;
      var n := |paths[i]|;
      assert n == |paths[j]|;
      assert paths[i][n - 7..] == Months[i];
      assert paths[j][n - 7..] == Months[j];
    }
  }

  /** For an id without '/', each bill request splits back into the student and its month. */
  lemma BillRequestSegments(studentId: string)
    requires '/' !in studentId
    ensures forall i :: 0 <= i < |BillPaths(studentId)| ==>
      Text.Split(BillPaths(studentId)[i], '/') == ["", "bill", studentId, Months[i]]
  {
    MonthsConsecutive();
    var paths := BillPaths(studentId);
    forall i | 0 <= i < |paths|
      ensures Text.Split(paths[i], '/') == ["", "bill", studentId, Months[i]]
    {
      MonthLabelHasNoSlash(Months[i]);
      BillPathSegments(studentId, Months[i]);
    }
  }

  lemma RangePathSegments(kind: string, studentId: string, range: DateRange)
    requires '/' !in kind && '/' !in studentId && '/' !in range.start && '/' !in range.end
    ensures Text.Split("/" + kind + "/" + studentId + "/" + range.start + "/" + range.end, '/')
      == ["", kind, studentId, range.start, range.end]
  {
    var parts := ["", kind, studentId, range.start, range.end];
    RangePathJoin(kind, studentId, range);
    Text.SplitJoin(parts, '/');
  }

  lemma RangePathJoin(kind: string, studentId: string, range: DateRange)
    ensures Text.Join(["", kind, studentId, range.start, range.end], '/')
      == "/" + kind + "/" + studentId + "/" + range.start + "/" + range.end
  {
    var tail := Text.Join([studentId, range.start, range.end], '/');
    assert tail == studentId + "/" + range.start + "/" + range.end by {
      Text.JoinPrepend(range.start, [range.end], '/');
      Text.JoinPrepend(studentId, [range.start, range.end], '/');
    }
    Text.JoinPrepend(kind, [studentId, range.start, range.end], '/');
    Text.JoinPrepend("", [kind, studentId, range.start, range.end], '/');
    assert ["", kind, studentId, range.start, range.end] == [""] + [kind, studentId, range.start, range.end];
    assert [kind, studentId, range.start, range.end] == [kind] + [studentId, range.start, range.end];
    assert "/" + kind + "/" + studentId + "/" + range.start + "/" + range.end == "/" + kind + "/" + tail;
  }

  /**
   * A service-usage path splits back into the student and the range it was built from when
   * none of them holds a '/'; so different queries are different requests.
   */
  lemma ServiceUsagePathSegments(studentId: string, range: DateRange)
    requires '/' !in studentId && '/' !in range.start && '/' !in range.end
    ensures Text.Split(ServiceUsagePath(studentId, range), '/') == ["", "service-usage", studentId, range.start, range.end]
  {
    assert '/' !in "service-usage";
    RangePathSegments("service-usage", studentId, range);
    assert "/service-usage/" == "/" + "service-usage" + "/";
    assert ServiceUsagePath(studentId, range) == "/" + "service-usage" + "/" + studentId + "/" + range.start + "/" + range.end;
  }

  /** The same for a guest-visits path. */
  lemma GuestVisitsPathSegments(studentId: string, range: DateRange)
    requires '/' !in studentId && '/' !in range.start && '/' !in range.end
    ensures Text.Split(GuestVisitsPath(studentId, range), '/') == ["", "guest-visits", studentId, range.start, range.end]
  {
    assert '/' !in "guest-visits";
    RangePathSegments("guest-visits", studentId, range);
    assert "/guest-visits/" == "/" + "guest-visits" + "/";
    assert GuestVisitsPath(studentId, range) == "/" + "guest-visits" + "/" + studentId + "/" + range.start + "/" + range.end;
  }

  /** A service-usage request is never a guest-visits request, whatever the ranges. */
  lemma ServiceAndGuestPathsDiffer(studentId: string, services: DateRange, otherId: string, guests: DateRange)
    ensures ServiceUsagePath(studentId, services) != GuestVisitsPath(otherId, guests)
  {
    assert ServiceUsagePath(studentId, services)[1] == 's';
    assert GuestVisitsPath(otherId, guests)[1] == 'g';
  }

  /**
   * `Promise.all` over the responses, then `.map((res) => res.data)`: every value, in
   * request order, if every request succeeded; nothing if any one failed.
   */
  function AllOrNothing<T>(outcomes: seq<Option<T>>): (r: Option<seq<T>>)
    ensures r.Some? <==> forall i :: 0 <= i < |outcomes| ==> outcomes[i].Some?
    ensures r.Some? ==> |r.value| == |outcomes| && forall i :: 0 <= i < |outcomes| ==> r.value[i] == outcomes[i].value
  {
    if outcomes == [] then Some([])
    else
      match outcomes[0]
      case None => None
      case Some(first) =>
        match AllOrNothing(outcomes[1..])
        case None => None
        case Some(rest) => Some([first] + rest)
  }
}
