/**
 * The home page's state: the page of students on screen, the total number of students,
 * the current page and the loading flag, with the operations that change them and the
 * view they select. Each fetch is one atomic step whose outcome is a parameter.
 */
module Home {

  import opened Wrappers
  import Api
  import Text
  import Pagination

  /** `/students?page={page}&limit={limit}`. */
  function StudentsPath(page: int): string {
    "/students?page=" + Text.IntToString(page) + "&limit=" + Text.IntToString(Pagination.Limit)
  }

  /** Different pages are fetched with different requests. */
  lemma StudentsPathInjective(p: int, q: int)
    ensures StudentsPath(p) == StudentsPath(q) ==> p == q
  {
    if StudentsPath(p) == StudentsPath(q) {
      var prefix := "/students?page=";
      var suffix := "&limit=" + Text.IntToString(Pagination.Limit);
      var sp, sq := StudentsPath(p), StudentsPath(q);
      assert sp == prefix + Text.IntToString(p) + suffix;
      assert sq == prefix + Text.IntToString(q) + suffix;
      assert sp[|prefix|..|sp| - |suffix|] == Text.IntToString(p);
      assert sq[|prefix|..|sq| - |suffix|] == Text.IntToString(q);
      Text.IntToStringInjective(p, q);
    }
  }

  /** What the student column renders: a spinner, or the rows above the pagination bar. */
  datatype ListView = Spinner | Listing(rows: seq<Api.Student>, pager: seq<Pagination.Control>)

  class HomeView {
    var students: seq<Api.Student>
    var totalStudents: nat
    var currentPage: int
    var loading: bool

    /** The page number never drops below the first page. */
    ghost predicate Valid()
      reads this
    {
      currentPage >= 1
    }

    constructor ()
      ensures Valid()
      ensures students == [] && totalStudents == 0 && currentPage == 1 && !loading
    {
      students := [];
      totalStudents := 0;
      currentPage := 1;
      loading := false;
    }

    function TotalPages(): nat
      reads this
    {
      Pagination.TotalPages(totalStudents)
    }

    /** `handlePageChange`: move to `page` if it exists, otherwise do nothing. */
    method HandlePageChange(page: int)
      requires Valid()
      modifies this`currentPage
      ensures Valid()
      ensures currentPage == if Pagination.Accepts(page, TotalPages()) then page else old(currentPage)
    {
      if page >= 1 && page <= TotalPages() {
        currentPage := page;
      }
    }

    /** A click on a control of the pagination bar; an ellipsis has no handler. */
    method Click(control: Pagination.Control)
      requires Valid()
      modifies this`currentPage
      ensures Valid()
      ensures control.Ellipsis? ==> currentPage == old(currentPage)
      ensures !control.Ellipsis? ==>
        currentPage == if Pagination.Accepts(control.page, TotalPages()) then control.page else old(currentPage)
    {
      if !control.Ellipsis? {
        HandlePageChange(control.page);
      }
    }

    /**
     * `fetchStudents`: raise the loading flag, request the current page, replace the rows
     * and the total by the response if there is one (keep both otherwise), lower the flag.
     */
    method FetchStudents(response: Option<Api.StudentPage>) returns (url: string)
      modifies this`students, this`totalStudents, this`loading
      ensures url == Api.Url(StudentsPath(currentPage))
      ensures !loading
      ensures students == if response.Some? then response.value.students else old(students)
      ensures totalStudents == if response.Some? then response.value.total else old(totalStudents)
    {
      loading := true;
      url := Api.Url(StudentsPath(currentPage));
      match response {
        case Some(page) =>
          students := page.students;
          totalStudents := page.total;
        case None =>
      }
      loading := false;
    }

    /** The student column: the spinner while loading, otherwise the rows and the bar. */
    function View(): (v: ListView)
      reads this
      ensures v.Spinner? <==> loading
      ensures v.Listing? ==> v.rows == students && v.pager == Pagination.Bar(TotalPages(), currentPage)
    {
      if loading then Spinner else Listing(students, Pagination.Bar(TotalPages(), currentPage))
    }
  }
}
