/** The teacher's student search box
    (frontend/src/components/dashboard/teacher-dashboard/StudentSearch.tsx):
    the typed query filters the loaded students by name or email, and the
    results menu is open exactly when something matched. */
module StudentSearch {
  import opened Base
  import opened Strings

  /** A `StudentResponse`; a field the server left out is `None`. */
  datatype Student = Student(id: string, firstName: Option<string>, lastName: Option<string>, email: Option<string>)

  /** `field?.toLowerCase() || ""`. */
  function Lowered(field: Option<string>): string {
    Lower(field.GetOr(""))
  }

  function FullName(s: Student): string {
    Lowered(s.firstName) + " " + Lowered(s.lastName)
  }

  /** The filter predicate for an already normalised query. */
  predicate Matches(s: Student, input: string) {
    Contains(Lowered(s.firstName), input) || Contains(Lowered(s.lastName), input)
    || Contains(FullName(s), input) || Contains(Lowered(s.email), input)
  }

  /** `e.target.value.trim().toLowerCase()`. */
  function Normalize(query: string): string {
    Lower(Trim(query))
  }

  /** `studentData.filter(...)`. */
  function Filter(students: seq<Student>, input: string): (r: seq<Student>)
    ensures |r| <= |students|
    ensures forall x :: x in r ==> x in students && Matches(x, input)
    decreases |students|
  {
    if |students| == 0 then []
    else (if Matches(students[0], input) then [students[0]] else []) + Filter(students[1..], input)
  }

  /** The results for what the user typed. */
  function Search(students: seq<Student>, query: string): (r: seq<Student>)
    ensures |r| <= |students|
    ensures forall x :: x in r ==> x in students && Matches(x, Normalize(query))
  {
    Filter(students, Normalize(query))
  }

  // ---------------------------------------------------------------------------
  // Properties

  /** The results keep the order of the student list. */
  lemma {:induction false} FilterAppend(a: seq<Student>, b: seq<Student>, input: string)
    ensures Filter(a + b, input) == Filter(a, input) + Filter(b, input)
    decreases |a|
  {
    if |a| > 0 {
      assert (a + b)[1..] == a[1..] + b;
      FilterAppend(a[1..], b, input);
    } else {
      assert a + b == b;
    }
  }

  /** A student is in the results exactly when they match. */
  lemma {:induction false} FilterMembership(students: seq<Student>, input: string, x: Student)
    requires x in students
    ensures x in Filter(students, input) <==> Matches(x, input)
    decreases |students|
  {
    if students[0] != x {
      FilterMembership(students[1..], input, x);
    }
  }

  /** A query of blanks lists every student. */
  lemma {:induction false} BlankQueryListsAll(students: seq<Student>, query: string)
    requires forall k :: 0 <= k < |query| ==> IsSpace(query[k])
    ensures Search(students, query) == students
    decreases |students|
  {
    assert Normalize(query) == "";
    if |students| > 0 {
      ContainsEmpty(Lowered(students[0].firstName));
      BlankQueryListsAll(students[1..], query);
    }
  }

  /** The search ignores the case of the query. */
  lemma CaseInsensitive(students: seq<Student>, query: string)
    ensures Search(students, Lower(query)) == Search(students, query)
  {
    TrimLower(query);
    TrimIdempotent(query);
    LowerIdempotent(Trim(query));
  }

  lemma ContainsSelf(s: string)
    ensures Contains(s, s)
  {
  }

  /** Typing a student's email finds that student. */
  lemma FindsByEmail(students: seq<Student>, x: Student)
    requires x in students && x.email.Some? && x.email.value != ""
    requires !IsSpace(x.email.value[0]) && !IsSpace(x.email.value[|x.email.value| - 1])
    ensures x in Search(students, x.email.value)
  {
    LowerIdempotent(x.email.value);
    ContainsSelf(Lowered(x.email));
    FilterMembership(students, Normalize(x.email.value), x);
  }

  /** A student with no name and no email is found only by a blank query. */
  lemma BareStudentNeedsBlankQuery(students: seq<Student>, x: Student, query: string)
    requires x in students && x.firstName.None? && x.lastName.None? && x.email.None?
    ensures x in Search(students, query) <==> Normalize(query) == ""
  {
    FilterMembership(students, Normalize(query), x);
    var q := Normalize(query);
    assert FullName(x) == " ";
    if q != "" {
      assert !IsSpace(Trim(query)[0]);
      assert q[0] != ' ';
      assert !Contains(" ", q);
    }
  }

  /** The search box's state. */
  class SearchBox {
    var studentData: seq<Student>
    var searchResults: seq<Student>
    var menuIsOpen: bool

    constructor (students: seq<Student>)
      ensures studentData == students && searchResults == [] && !menuIsOpen
    {
      studentData := students;
      searchResults := [];
      menuIsOpen := false;
    }

    /** The debounced change handler. */
    method OnChange(value: string)
      modifies this`searchResults, this`menuIsOpen
      ensures searchResults == Search(studentData, value)
      ensures menuIsOpen <==> |searchResults| > 0
      ensures forall x :: x in searchResults ==> x in studentData
    {
      var input := Normalize(value);
      var filtered := Filter(studentData, input);
      searchResults := filtered;
      menuIsOpen := |filtered| > 0;
    }
  }
}
