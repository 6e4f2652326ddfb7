/**
 * The student detail page's state: the student, the bills, the service usage and the
 * guest visits, one loading flag for each, and the two date ranges. Each fetch handler is
 * one atomic step whose network outcome is a parameter: it raises its flag, replaces its
 * list on success or keeps it on failure, and lowers its flag.
 */
module StudentDetail {

  import opened Wrappers
  import Api
  import opened DetailRequests

  /** The page as a whole: the loading placeholder, or the details of the student. */
  datatype Page = Placeholder | Details(student: Api.Student)

  /** One section of the page: a spinner, the "no data" message, or a table of rows. */
  datatype Panel<T> = Spinner | NoData | Table(rows: seq<T>)

  class StudentDetailView {
    /** The `:id` of the route. */
    const studentId: string

    var student: Option<Api.Student>
    var bills: seq<Api.Bill>
    var services: seq<Api.ServiceUsage>
    var guests: seq<Api.GuestVisit>
    var loadingStudent: bool
    var loadingBills: bool
    var loadingServices: bool
    var loadingGuests: bool
    var serviceDateRange: DateRange
    var guestDateRange: DateRange

    constructor (studentId: string)
      ensures this.studentId == studentId
      ensures student == None && bills == [] && services == [] && guests == []
      ensures !loadingStudent && !loadingBills && !loadingServices && !loadingGuests
      ensures serviceDateRange == InitialServiceRange && guestDateRange == InitialGuestRange
    {
      this.studentId := studentId;
      student := None;
      bills := [];
      services := [];
      guests := [];
      loadingStudent := false;
      loadingBills := false;
      loadingServices := false;
      loadingGuests := false;
      serviceDateRange := InitialServiceRange;
      guestDateRange := InitialGuestRange;
    }

    /** `handleServiceDateChange`: one bound of the service range takes the input's value. */
    method HandleServiceDateChange(field: RangeField, value: string)
      modifies this`serviceDateRange
      ensures serviceDateRange == old(serviceDateRange).With(field, value)
    {
      serviceDateRange := serviceDateRange.With(field, value);
    }

    /** `handleGuestDateChange`: one bound of the guest range takes the input's value. */
    method HandleGuestDateChange(field: RangeField, value: string)
      modifies this`guestDateRange
      ensures guestDateRange == old(guestDateRange).With(field, value)
    {
      guestDateRange := guestDateRange.With(field, value);
    }

    /** `fetchStudent`: the student on success, the previous value on failure. */
    method FetchStudent(response: Option<Api.Student>) returns (url: string)
      modifies this`student, this`loadingStudent
      ensures url == Api.Url(StudentPath(studentId))
      ensures !loadingStudent
      ensures student == if response.Some? then response else old(student)
    {
      loadingStudent := true;
      url := Api.Url(StudentPath(studentId));
      if response.Some? {
        student := response;
      }
      loadingStudent := false;
    }

    /**
     * `fetchBills`: one request per month, in month order; `fetch` is the API's answer to
     * each URL. The bills are replaced only if every request succeeded.
     */
    method FetchBills(fetch: string -> Option<Api.Bill>) returns (urls: seq<string>)
      modifies this`bills, this`loadingBills
      ensures |urls| == |Months| == 16
      ensures forall i :: 0 <= i < |urls| ==> urls[i] == Api.Url(BillPath(studentId, Months[i]))
      ensures !loadingBills
      ensures (forall i :: 0 <= i < |urls| ==> fetch(urls[i]).Some?) ==>
        bills == seq(|urls|, i requires 0 <= i < |urls| => fetch(urls[i]).value)
      ensures (exists i :: 0 <= i < |urls| && fetch(urls[i]).None?) ==> bills == old(bills)
    {
      loadingBills := true;
      var paths := BillPaths(studentId);
      urls := seq(|paths|, i requires 0 <= i < |paths| => Api.Url(paths[i]));
      var responses := seq(|urls|, i requires 0 <= i < |urls| => fetch(urls[i]));
      match AllOrNothing(responses) {
        case Some(all) =>
          bills := all;
          assert forall i :: 0 <= i < |urls| ==> responses[i] == fetch(urls[i]) && fetch(urls[i]).Some?;
          assert bills == seq(|urls|, i requires 0 <= i < |urls| => fetch(urls[i]).value);
        case None =>
          assert exists i :: 0 <= i < |urls| && fetch(urls[i]).None? by {
            var i :| 0 <= i < |responses| && responses[i].None?;
          }
      }
      loadingBills := false;
    }

    /** `handleFetchServices` (and the same request on mount) with the current service range. */
    method FetchServices(response: Option<seq<Api.ServiceUsage>>) returns (url: string)
      modifies this`services, this`loadingServices
      ensures url == Api.Url(ServiceUsagePath(studentId, serviceDateRange))
      ensures !loadingServices
      ensures services == if response.Some? then response.value else old(services)
    {
      loadingServices := true;
      url := Api.Url(ServiceUsagePath(studentId, serviceDateRange));
      match response {
        case Some(rows) =>
          services := rows;
        case None =>
      }
      loadingServices := false;
    }

    /** `handleFetchGuests` (and the same request on mount) with the current guest range. */
    method FetchGuests(response: Option<seq<Api.GuestVisit>>) returns (url: string)
      modifies this`guests, this`loadingGuests
      ensures url == Api.Url(GuestVisitsPath(studentId, guestDateRange))
      ensures !loadingGuests
      ensures guests == if response.Some? then response.value else old(guests)
    {
      loadingGuests := true;
      url := Api.Url(GuestVisitsPath(studentId, guestDateRange));
      match response {
        case Some(rows) =>
          guests := rows;
        case None =>
      }
      loadingGuests := false;
    }

    /** The loading placeholder while the student loads or when there is none. */
    function PageView(): (p: Page)
      reads this
      ensures p.Placeholder? <==> loadingStudent || student.None?
      ensures p.Details? ==> student == Some(p.student)
    {
      if loadingStudent || student.None? then Placeholder else Details(student.value)
    }

    /** The bill table, or a spinner while the bills load; an empty list is an empty table. */
    function BillsPanel(): (p: Panel<Api.Bill>)
      reads this
      ensures p.Spinner? <==> loadingBills
      ensures !p.NoData?
      ensures p.Table? ==> p.rows == bills
    {
      if loadingBills then Spinner else Table(bills)
    }

    /** The service table, or a spinner while the services load. */
    function ServicesPanel(): (p: Panel<Api.ServiceUsage>)
      reads this
      ensures p.Spinner? <==> loadingServices
      ensures !p.NoData?
      ensures p.Table? ==> p.rows == services
    {
      if loadingServices then Spinner else Table(services)
    }

    /** The guest panel: a spinner while loading, else "no data" for no guests, else the table. */
    function GuestsPanel(): (p: Panel<Api.GuestVisit>)
      reads this
      ensures p.Spinner? <==> loadingGuests
      ensures p.NoData? <==> !loadingGuests && |guests| == 0
      ensures p.Table? ==> p.rows == guests && |guests| > 0
    {
      if loadingGuests then Spinner else if |guests| == 0 then NoData else Table(guests)
    }
  }
}
