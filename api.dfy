/**
 * The records the remote REST API returns, as the two components read them, and the
 * address every request goes to. The API itself is not modelled: each request's outcome
 * is a parameter of the handler that issues it.
 */
module Api {

  /** `API_BASE_URL`, the same constant in both components. */
  const BaseUrl: string := "https://w7gcjj-3000.csb.app"

  /** The URL a request for `path` is sent to. */
  function Url(path: string): (url: string)
    ensures |url| == |BaseUrl| + |path|
    ensures url[..|BaseUrl|] == BaseUrl && url[|BaseUrl|..] == path
  {
    BaseUrl + path
  }

  /** A student as listed on the home page and shown on the detail page. */
  datatype Student = Student(
    studentId: string,
    name: string,
    idCard: string,
    dateOfBirth: string,
    className: string,
    hometown: string,
    roomNumber: string,
    roomType: string)

  /** One page of the student list: the rows and the total number of students. */
  datatype StudentPage = StudentPage(students: seq<Student>, total: nat)

  /** A monthly bill; the API is trusted to make `total` the sum of the three fees. */
  datatype Bill = Bill(month: string, roomFee: int, serviceFee: int, vehicleFee: int, total: int)

  /** The total a student spent on one service within a date range. */
  datatype ServiceUsage = ServiceUsage(serviceName: string, totalPrice: int)

  /** How often one guest visited a student within a date range. */
  datatype GuestVisit = GuestVisit(guestIdCard: string, guestName: string, visitCount: int)
}
