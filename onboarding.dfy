/**
 * The onboarding form: four text fields edited by their input handlers, a
 * completeness check that enables the submit button, and the submit handler
 * that signs the user in with the trimmed values.
 */
module Onboarding {
  import opened Wrappers
  import opened Text
  import opened Catalog

  datatype Field = Username | Email | Major | Course

  /** Every field holds something other than whitespace: a field that is
      empty or whitespace only is what keeps the form incomplete. */
  predicate Complete(username: string, email: string, major: string, course: string)
    ensures Complete(username, email, major, course) <==>
      !AllWhitespace(username) && !AllWhitespace(email) && !AllWhitespace(major) && !AllWhitespace(course)
  {
    Trim(username) != "" && Trim(email) != "" && Trim(major) != "" && Trim(course) != ""
  }

  class Form {
    var username: string
    var email: string
    var major: string
    var course: string

    constructor ()
      ensures username == "" && email == "" && major == "" && course == ""
    {
      username, email, major, course := "", "", "", "";
    }

    /** The `onChange` handler of one input: it stores the raw value typed. */
    method Set(field: Field, value: string)
      modifies this
      ensures field == Username ==> username == value
      ensures field == Email ==> email == value
      ensures field == Major ==> major == value
      ensures field == Course ==> course == value
      ensures field != Username ==> username == old(username)
      ensures field != Email ==> email == old(email)
      ensures field != Major ==> major == old(major)
      ensures field != Course ==> course == old(course)
    {
      match field
      case Username => username := value;
      case Email => email := value;
      case Major => major := value;
      case Course => course := value;
    }

    /** `isFormComplete`; the submit button is disabled exactly when this is
        false, that is, when some field is empty or whitespace only. */
    predicate IsFormComplete()
      reads this
      ensures IsFormComplete() <==>
        !AllWhitespace(username) && !AllWhitespace(email) && !AllWhitespace(major) && !AllWhitespace(course)
    {
      Complete(username, email, major, course)
    }

    /** `handleSubmit`: the user passed to `onLogin`, or None when the handler
        does nothing. It signs in exactly when the button is enabled, with
        every field trimmed. */
    method HandleSubmit() returns (login: Option<User>)
      ensures login.Some? <==> IsFormComplete()
      ensures login.Some? ==> login.value == User(Trim(username), Trim(email), Trim(major), Trim(course))
    {
      if Trim(username) != "" && Trim(email) != "" && Trim(major) != "" && Trim(course) != "" {
        login := Some(User(Trim(username), Trim(email), Trim(major), Trim(course)));
      } else {
        login := None;
      }
    }
  }

  /** The user a complete form signs in with has every field non-empty and
      free of surrounding whitespace. */
  lemma SubmittedUserIsClean(username: string, email: string, major: string, course: string)
    requires Complete(username, email, major, course)
    ensures var u := User(Trim(username), Trim(email), Trim(major), Trim(course));
      && u.username != "" && u.email != "" && u.major != "" && u.course != ""
      && Trim(u.username) == u.username && Trim(u.email) == u.email
      && Trim(u.major) == u.major && Trim(u.course) == u.course
  {
    TrimIdempotent(username);
    TrimIdempotent(email);
    TrimIdempotent(major);
    TrimIdempotent(course);
  }

  /** A client: a form with a blank course does not sign in; once the course
      is filled in, it signs in with the padding removed. */
  method FillAndSubmit() returns (first: Option<User>, second: Option<User>)
    ensures first == None
    ensures second == Some(User("Ana", "ana@ur.edu", "Biomédica", "Prototipado 3D"))
  {
    var form := new Form();
    form.Set(Username, " Ana ");
    form.Set(Email, "ana@ur.edu");
    form.Set(Major, "Biomédica\n");
    form.Set(Course, " \t");
    first := SubmitBlankCourse(form);
    form.Set(Course, "Prototipado 3D");
    second := SubmitFilledForm(form);
  }

  /** Submitting with a whitespace-only course does nothing. */
  method SubmitBlankCourse(form: Form) returns (login: Option<User>)
    requires form.course == " \t"
    ensures login == None
  {
    BlankTrimsToEmpty();
    assert !form.IsFormComplete();
    login := form.HandleSubmit();
  }

  /** Submitting the sample form signs in with the padding removed. */
  method SubmitFilledForm(form: Form) returns (login: Option<User>)
    requires form.username == " Ana " && form.email == "ana@ur.edu"
    requires form.major == "Biomédica\n" && form.course == "Prototipado 3D"
    ensures login == Some(User("Ana", "ana@ur.edu", "Biomédica", "Prototipado 3D"))
  {
    SampleUsername();
    SampleEmail();
    SampleMajor();
    SampleCourse();
    assert form.IsFormComplete();
    login := form.HandleSubmit();
  }

  lemma BlankTrimsToEmpty()
    ensures Trim(" \t") == ""
  {
    assert AllWhitespace(" \t");
  }

  lemma SampleUsername()
    ensures Trim(" Ana ") == "Ana"
  {
    assert " Ana " == " " + "Ana" + " ";
    TrimPadded(" ", "Ana", " ");
  }

  lemma SampleEmail()
    ensures Trim("ana@ur.edu") == "ana@ur.edu"
  {
    assert "ana@ur.edu" == "" + "ana@ur.edu" + "";
    TrimPadded("", "ana@ur.edu", "");
  }

  lemma SampleMajor()
    ensures Trim("Biomédica\n") == "Biomédica"
  {
    assert "Biomédica\n" == "" + "Biomédica" + "\n";
    TrimPadded("", "Biomédica", "\n");
  }

  lemma SampleCourse()
    ensures Trim("Prototipado 3D") == "Prototipado 3D"
  {
    assert "Prototipado 3D" == "" + "Prototipado 3D" + "";
    TrimPadded("", "Prototipado 3D", "");
  }
}
