# Dormitory dashboard: pagination and student-detail view state

A model of the two components of a React dashboard for a student dormitory that hold
logic of their own:

- **The home page** (`src/components/Home.js`) lists students ten at a time. Its pagination
  bar is computed from the total number of students and the current page: the page count
  `ceil(total / 10)`, a window of page numbers within two of the current page, a leading
  "1 …" block, a trailing "… N" block, and Prev/Next buttons. Every click goes through one
  guard, `handlePageChange`, which accepts only existing pages. Fetching a page raises a
  loading flag, replaces the rows and the total on success, keeps them on failure, and
  lowers the flag.
- **The student detail page** (`src/components/StudentDetail.js`) shows one student, their
  sixteen monthly bills (2024-01 to 2025-04), their service usage and their guest visits.
  The usage and visit queries each have an editable `{start, end}` date range. Every fetch
  follows the same rule: raise the flag, replace the list on success or keep it on failure,
  lower the flag. The sixteen bill requests are combined all-or-nothing.

The Dafny modules follow that split:

| file | module | contents |
|---|---|---|
| `pagination.dfy` | `Pagination` | the page count, the window (as the source's `keys().filter().map()` pipeline), the bar as a sequence of controls, and lemmas about all of them |
| `home.dfy` | `Home` | class `HomeView` with the fields `students`, `totalStudents`, `currentPage`, `loading`; the page-change guard, clicks, the student fetch and the view selection |
| `detail_requests.dfy` | `DetailRequests` | date ranges and their field update, the month list, the request paths, and the `Promise.all` fan-in |
| `student_detail.dfy` | `StudentDetail` | class `StudentDetailView` with the page's state fields, its handlers and its panels |
| `api.dfy` | `Api` | the records the REST API returns and the base URL |
| `text.dfy` | `Text` | decimal rendering of integers and '/'-separated paths, each with its inverse |
| `wrappers.dfy` | `Wrappers` | `Option`, the outcome of a request (`None` = the request failed) |

Every network call is a parameter of the handler that makes it. For single requests this
is an `Option` of the response. For the bills it is a function from URL to `Option`. Each
handler returns the URL(s) it requested, so the contracts can say which request was made.
Each handler is one atomic step.

Points of the code's behaviour that a reader might not expect:

- The "1 …" block shows whenever `currentPage > 3`, including page 4, where the window
  starts at page 2, so the ellipsis sits between 1 and 2 and hides no page.
  `LeadingEllipsisGap` proves that, when also `currentPage - 2 ≤ totalPages` (the window is
  non-empty), the leading ellipsis stands for `currentPage - 4` pages.
  `TrailingEllipsisGap` proves that the trailing one stands for
  `totalPages - currentPage - 3` pages. `PageFourExample` shows the whole bar at page 4.
- The code keeps `currentPage ≥ 1` (`HomeView.Valid`) but not `currentPage ≤ totalPages`.
  Initially `currentPage` is 1 while `totalPages` is 0. After a fetch that lowers the total,
  `currentPage` can be above `totalPages`. In those states Next is not disabled, because its
  test is `currentPage === totalPages`. From two pages past the end Prev is not disabled
  either, because its test is `currentPage === 1`. Both requests are still refused by the
  guard (`NavigationGuard`, `FirstPageExamples`).
- The bill panel has no "no data" message: an empty bill list renders an empty table
  (`BillsPanel`). Only the guest panel has the message (`GuestsPanel`).

## Model

| member | source | states |
|---|---|---|
| `Api.Url` | src/components/Home.js:13 | a request goes to `API_BASE_URL` followed by its path |
| `Pagination.TotalPages` | src/components/Home.js:63 | the page count is the least n with total ≤ 10·n: 0 exactly when there are no students, else (n-1)·10 < total ≤ n·10 |
| `Pagination.TotalPagesExamples` | src/components/Home.js:22 | 95 and 100 students give 10 pages, 101 give 11, 1 gives 1 |
| `Pagination.WindowIsSpan` | src/components/Home.js:137-138 | the filtered keys, plus one, are exactly the run max(1, current-2) .. min(totalPages, current+2) |
| `Pagination.WindowMembers` | src/components/Home.js:137-145 | a page is rendered in the window iff 1 ≤ p ≤ totalPages and abs(p - current) ≤ 2 |
| `Pagination.WindowShape` | src/components/Home.js:137-145 | the window ascends by exactly one, has at most 5 pages, is empty when there are no pages, and is non-empty exactly when it overlaps 1 .. totalPages |
| `Pagination.BarPages` | src/components/Home.js:122-164 | the bar's numbered items are "1" (iff currentPage > 3), the window, then "totalPages" (iff currentPage < totalPages - 2); the active items are exactly [currentPage] when it is in range and none otherwise |
| `Pagination.BarPagesAscend` | src/components/Home.js:128-158 | the item numbers strictly ascend, so when "1 …" shows page 1 is not in the window, and when "… N" shows N is not |
| `Pagination.LeadingEllipsisGap` | src/components/Home.js:128-138 | when "1 …" shows and currentPage - 2 ≤ totalPages (the window is non-empty), the window starts at currentPage - 2 and the ellipsis stands for currentPage - 4 pages |
| `Pagination.TrailingEllipsisGap` | src/components/Home.js:137-158 | when "… N" shows, the window ends at currentPage + 2 and the ellipsis stands for totalPages - currentPage - 3 pages |
| `Pagination.NavigationGuard` | src/components/Home.js:123-163 | Prev requests currentPage - 1, disabled iff currentPage == 1; Next requests currentPage + 1, disabled iff currentPage == totalPages; a disabled button's request is refused; in range a button is enabled iff its request is accepted; past the last page Next stays enabled and is refused, and two or more pages past it so does Prev |
| `Pagination.ItemsAccepted` | src/components/Home.js:130-153 | with at least one page, every numbered item requests a page the guard accepts |
| `Pagination.PageFiveExample` | src/components/Home.js:137-158 | on page 5 of at least 8 pages the window is 3..7 and both blocks show |
| `Pagination.FirstPageExamples` | src/components/Home.js:122-164 | the complete bars for page 1 of 3, of 1 (both buttons disabled) and of 0 pages (Next enabled) |
| `Pagination.PageFourExample` | src/components/Home.js:122-164 | the complete bar for page 4 of at least 7 pages: "‹ 1 … 2 3 [4] 5 6 … N ›" |
| `Home.StudentsPathInjective` | src/components/Home.js:30-32 | different pages are fetched with different `/students?page=..&limit=10` requests |
| `Text.ParseIntToString` | src/components/Home.js:31 | the decimal text of the page number reads back as that number |
| `Home.HomeView.constructor` | src/components/Home.js:16-20 | initially no students, total 0, page 1, not loading |
| `Home.HomeView.HandlePageChange` | src/components/Home.js:64-68 | the current page becomes `page` iff 1 ≤ page ≤ totalPages and is unchanged otherwise; currentPage ≥ 1 is preserved; nothing else changes |
| `Home.HomeView.Click` | src/components/Home.js:123-163 | a click on Prev, an item or Next hands its page to the guard; an ellipsis does nothing |
| `Home.HomeView.FetchStudents` | src/components/Home.js:27-40 | requests the current page; on success rows and total become the response's, on failure both are kept; loading ends false; the page is untouched |
| `Home.HomeView.View` | src/components/Home.js:79-167 | a spinner iff loading, otherwise the rows over the bar for the current page |
| `DetailRequests.DateRange.With` | src/components/StudentDetail.js:111-120 | the named bound takes the new value and the other bound is unchanged; no ordering is checked |
| `DetailRequests.MonthsConsecutive` | src/components/StudentDetail.js:47-64 | the month list has 16 well-formed labels whose month numbers run consecutively from 2024-01 to 2025-04 |
| `DetailRequests.BillPathSegments` | src/components/StudentDetail.js:66 | `/bill/{id}/{month}` splits back into id and month when neither holds a '/' |
| `DetailRequests.BillRequests` | src/components/StudentDetail.js:65-67 | for every student id: 16 requests, the i-th for the i-th month, no two alike |
| `DetailRequests.BillRequestSegments` | src/components/StudentDetail.js:65-67 | for an id without '/', the i-th bill request splits back into the student and the i-th month |
| `DetailRequests.ServiceUsagePathSegments` | src/components/StudentDetail.js:125-127 | `/service-usage/{id}/{start}/{end}` splits back into the student and the range |
| `DetailRequests.GuestVisitsPathSegments` | src/components/StudentDetail.js:139-141 | `/guest-visits/{id}/{start}/{end}` splits back into the student and the range |
| `DetailRequests.ServiceAndGuestPathsDiffer` | src/components/StudentDetail.js:122-148 | a service-usage request never coincides with a guest-visits request |
| `DetailRequests.AllOrNothing` | src/components/StudentDetail.js:65-69 | the combined result exists iff every response succeeded, and then it is every value in request order |
| `StudentDetail.StudentDetailView.constructor` | src/components/StudentDetail.js:10-25 | no student, empty lists, no flags raised, service range 2025-01-01..2025-04-18, guest range 2025-04-01..2025-04-18 |
| `StudentDetail.StudentDetailView.HandleServiceDateChange` | src/components/StudentDetail.js:111-116 | only the named bound of the service range changes; every other field is framed out |
| `StudentDetail.StudentDetailView.HandleGuestDateChange` | src/components/StudentDetail.js:118-120 | only the named bound of the guest range changes; every other field is framed out |
| `StudentDetail.StudentDetailView.FetchStudent` | src/components/StudentDetail.js:30-42 | requests `/student/{id}`; the student is replaced on success and kept on failure; loadingStudent ends false |
| `StudentDetail.StudentDetailView.FetchBills` | src/components/StudentDetail.js:44-75 | requests the 16 month URLs in order; bills become all 16 responses if every one succeeded and are unchanged if any failed; loadingBills ends false |
| `StudentDetail.StudentDetailView.FetchServices` | src/components/StudentDetail.js:122-134 | requests the service-usage path of the current service range; services replaced on success, kept on failure; loadingServices ends false; guests, ranges and other flags untouched |
| `StudentDetail.StudentDetailView.FetchGuests` | src/components/StudentDetail.js:136-148 | the same with the guest-visits path, `guests` and `loadingGuests`; the service side is untouched |
| `StudentDetail.StudentDetailView.PageView` | src/components/StudentDetail.js:150-157 | the loading placeholder iff loadingStudent or no student, otherwise the student's details |
| `StudentDetail.StudentDetailView.BillsPanel` | src/components/StudentDetail.js:194-222 | a spinner iff loadingBills, otherwise the bill table (never a "no data" message) |
| `StudentDetail.StudentDetailView.ServicesPanel` | src/components/StudentDetail.js:249-271 | a spinner iff loadingServices, otherwise the service table |
| `StudentDetail.StudentDetailView.GuestsPanel` | src/components/StudentDetail.js:299-327 | a spinner iff loadingGuests; otherwise "no data" iff there are no guests; otherwise the table of guests |

## Left out

- The HTTP calls (axios) and the API's behaviour: each call is an outcome parameter, so error kinds and the `console.error` logging are not modelled.
- React's hooks and effects: the effect that re-runs `fetchStudents` when `currentPage` changes is the caller calling `FetchStudents` after a page change. The mount effect of the detail page is the four fetch methods called in turn.
- Concurrency: in-flight requests overlapping, `Promise.all` running in parallel, and stale responses overwriting newer state are not modelled; every handler is one atomic step.
- The revenue column of the home page (`fetchRevenue`, `src/components/Home.js:45-60`, and its table) is not part of this model. It follows the same fetch rule with a fixed path.
- Navigation (`handleRowClick`, the Back button) and routing (`src/App.js`): they only change the browser location.
- Number and date formatting (`toLocaleString("vi")`, `toLocaleDateString()`): locale library code, not visible here.
- Calendar validity of the date strings: the inputs' strings are passed through unchecked, and so are they here.
- Pagination.TotalPages: the response's `total` is taken to be a non-negative integer (a `nat`). A negative or fractional JSON number is not modelled. A total from -9 to -1 gives `-0` pages and an empty bar; a total of -10 or less makes `Array(totalPages)` throw.
- Pagination.Keys: JavaScript's `Array(n)` throws a `RangeError` when n is 2^32 or more, so a total above 10·(2^32 − 1) breaks the page. The model puts no upper bound on the total or on the page count.
- Home.HomeView.Click: react-bootstrap's rendering of disabled and active items is not modelled. The click is taken to reach `handlePageChange` in every case. `NavigationGuard` shows that a disabled button's request is refused anyway.
- DetailRequests.ServiceUsagePathSegments, DetailRequests.GuestVisitsPathSegments, DetailRequests.BillPathSegments, DetailRequests.BillRequestSegments: these hold only for ids and bounds without '/'. URL encoding of the path segments is not modelled.
