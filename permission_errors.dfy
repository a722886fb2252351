/**
 * Classification of the edit-permission errors the query API reports for a
 * page: each raw error becomes a protected-page error or an unknown error,
 * in the order the API lists them; a malformed answer is a technical
 * problem and an invalid title is reported as such.
 */
module PermissionErrors {
  import opened Basics

  /** One entry of `actions.edit`; a non-raw error has no `key` and no `params`. */
  datatype RawError = RawError(code: string, key: Option<string>, params: Option<seq<string>>)

  /** A page of the answer; `editActions` is None when `actions` is missing. */
  datatype Page = Page(title: string, invalid: bool, editActions: Option<seq<RawError>>)

  /** The `query` part of the answer; `semiprotectedLevels` is None when `restrictions` lacks it. */
  datatype Query = Query(pages: seq<Page>, semiprotectedLevels: Option<seq<string>>)

  /** The API call either answers or rejects; a rejection is passed through unchanged. */
  datatype ApiResponse = Answered(query: Query) | Rejected(rejection: string)

  datatype PermissionError =
    | ProtectedPage(right: string, semiProtected: bool)
    | UnknownError(code: string, messageKey: string, messageParams: seq<string>)

  datatype RepositoryError = TechnicalProblem | TitleInvalid(title: string) | ApiRejection(rejection: string)

  const ProtectedPageCode := "protectedpage"

  /** The right that is semi-protected whatever the wiki's levels are. */
  const EditSemiProtected := "editsemiprotected"

  /** A right counts as semi-protection when it is one of the levels or `editsemiprotected`. */
  predicate IsSemiProtected(right: string, levels: seq<string>)
  {
    right in levels || right == EditSemiProtected
  }

  /** One raw error, classified. */
  function Classify(error: RawError, levels: seq<string>): (r: Result<PermissionError, RepositoryError>)
    ensures r.Failure? <==> error.key.None? || error.params.None? || (error.code == ProtectedPageCode && error.params.value == [])
    ensures r.Failure? ==> r.error == TechnicalProblem
    ensures r.Success? && error.code == ProtectedPageCode ==>
              r.value == ProtectedPage(error.params.value[0], IsSemiProtected(error.params.value[0], levels))
    ensures r.Success? && error.code != ProtectedPageCode ==>
              r.value == UnknownError(error.code, error.key.value, error.params.value)
  {
    if error.key.None? || error.params.None? then Failure(TechnicalProblem)
    else if error.code == ProtectedPageCode then
      if error.params.value == [] then Failure(TechnicalProblem)
      else
        var right := error.params.value[0];
        Success(ProtectedPage(right, IsSemiProtected(right, levels)))
    else Success(UnknownError(error.code, error.key.value, error.params.value))
  }

  /** All raw errors, classified one by one, in order; one malformed error fails the whole list. */
  function ClassifyAll(errors: seq<RawError>, levels: seq<string>): (r: Result<seq<PermissionError>, RepositoryError>)
    ensures r.Failure? <==> exists i :: 0 <= i < |errors| && Classify(errors[i], levels).Failure?
    ensures r.Failure? ==> r.error == TechnicalProblem
    ensures r.Success? ==> (|r.value| == |errors| &&
              forall i :: 0 <= i < |errors| ==> Success(r.value[i]) == Classify(errors[i], levels))
  {
    if errors == [] then Success([])
    else
      match Classify(errors[0], levels)
      case Failure(e) => Failure(e)
      case Success(first) =>
        match ClassifyAll(errors[1..], levels)
        case Failure(e) =>
          assert forall i :: 1 <= i < |errors| ==> errors[1..][i - 1] == errors[i];
          Failure(e)
        case Success(rest) =>
          assert forall i :: 1 <= i < |errors| ==> errors[1..][i - 1] == errors[i];
          Success([first] + rest)
  }

  /**
   * `getPermissionErrors` on the API's answer: the rejection is passed
   * through; a missing page, missing `actions`, missing semi-protected levels
   * or a non-raw error is a technical problem; an invalid page is
   * `TitleInvalid` for the requested title.
   */
  function GetPermissionErrors(response: ApiResponse, title: string): (r: Result<seq<PermissionError>, RepositoryError>)
    ensures response.Rejected? ==> r == Failure(ApiRejection(response.rejection))
    ensures response.Answered? && response.query.pages == [] ==> r == Failure(TechnicalProblem)
    ensures response.Answered? && response.query.pages != [] && response.query.pages[0].invalid ==>
              r == Failure(TitleInvalid(title))
    ensures response.Answered? && response.query.pages != [] && !response.query.pages[0].invalid &&
            (response.query.pages[0].editActions.None? || response.query.semiprotectedLevels.None?) ==>
              r == Failure(TechnicalProblem)
    ensures response.Answered? && response.query.pages != [] && !response.query.pages[0].invalid &&
            response.query.pages[0].editActions.Some? && response.query.semiprotectedLevels.Some? ==>
              r == ClassifyAll(response.query.pages[0].editActions.value, response.query.semiprotectedLevels.value)
  {
    match response
    case Rejected(rejection) => Failure(ApiRejection(rejection))
    case Answered(query) =>
      if query.pages == [] then Failure(TechnicalProblem)
      else
        var page := query.pages[0];
        if page.invalid then Failure(TitleInvalid(title))
        else if page.editActions.None? || query.semiprotectedLevels.None? then Failure(TechnicalProblem)
        else ClassifyAll(page.editActions.value, query.semiprotectedLevels.value)
  }

  /** Classifying a list in two parts gives the classification of the whole, in the same order. */
  lemma {:induction false} ClassifyAllConcat(a: seq<RawError>, b: seq<RawError>, levels: seq<string>)
    requires ClassifyAll(a, levels).Success? && ClassifyAll(b, levels).Success?
    ensures ClassifyAll(a + b, levels) == Success(ClassifyAll(a, levels).value + ClassifyAll(b, levels).value)
  {
    var ra, rb := ClassifyAll(a, levels).value, ClassifyAll(b, levels).value;
    var r := ClassifyAll(a + b, levels);
    assert forall i :: 0 <= i < |a + b| ==> Classify((a + b)[i], levels).Success? by {
      forall i | 0 <= i < |a + b|
        ensures Classify((a + b)[i], levels).Success?
      {
        if i < |a| {
          assert (a + b)[i] == a[i];
        } else {
          assert (a + b)[i] == b[i - |a|];
        }
      }
    }
    assert r.value == ra + rb by {
      forall i | 0 <= i < |a + b|
        ensures r.value[i] == (ra + rb)[i]
      {
        if i < |a| {
          assert (a + b)[i] == a[i];
        } else {
          assert (a + b)[i] == b[i - |a|];
        }
      }
    }
  }

  /** A classification is the classifications of the single errors, concatenated. */
  lemma {:induction false} ClassifyAllIsPerError(errors: seq<RawError>, levels: seq<string>)
    requires ClassifyAll(errors, levels).Success?
    ensures ClassifyAll(errors, levels).value == seq(|errors|, i requires 0 <= i < |errors| => Classify(errors[i], levels).value)
  {
  }

  /** A page with no edit errors has no permission errors. */
  lemma NoRawErrorsNoPermissionErrors(title: string, levels: seq<string>)
    ensures GetPermissionErrors(Answered(Query([Page(title, false, Some([]))], Some(levels))), title) == Success([])
  {
  }

  /** A protected-page error is semi-protection exactly when its right is a semi-protected level or `editsemiprotected`. */
  lemma SemiProtectedIff(key: string, right: string, rest: seq<string>, levels: seq<string>)
    ensures Classify(RawError(ProtectedPageCode, Some(key), Some([right] + rest)), levels).Success?
    ensures Classify(RawError(ProtectedPageCode, Some(key), Some([right] + rest)), levels).value.semiProtected <==>
            right in levels || right == EditSemiProtected
  {
  }

  /** The raw errors of the protection tests, for the semi-protected levels `["autoconfirmed"]`. */
  const ProtectedError := RawError(ProtectedPageCode, Some("protectedpagetext"), Some(["editprotected", "edit"]))
  const ExtensionError := RawError("added-by-extension", Some("added-by-extension-message"), Some(["param 1", "param 2"]))

  /** Two raw errors give two classified errors, in the order the API listed them. */
  lemma ExampleMultipleErrors()
    ensures GetPermissionErrors(Answered(Query([Page("Title", false, Some([ProtectedError, ExtensionError]))], Some(["autoconfirmed"]))), "Title") ==
            Success([ProtectedPage("editprotected", false),
                     UnknownError("added-by-extension", "added-by-extension-message", ["param 1", "param 2"])])
  {
    var errors, levels := [ProtectedError, ExtensionError], ["autoconfirmed"];
    assert "editprotected" != EditSemiProtected && "editprotected" !in levels;
    assert "added-by-extension" != ProtectedPageCode;
    assert Classify(errors[0], levels) == Success(ProtectedPage("editprotected", false));
    assert Classify(errors[1], levels) == Success(UnknownError("added-by-extension", "added-by-extension-message", ["param 1", "param 2"]));
    var r := ClassifyAll(errors, levels);
    assert r.Success?;
    assert r.value[0] == ProtectedPage("editprotected", false);
    assert r.value[1] == UnknownError("added-by-extension", "added-by-extension-message", ["param 1", "param 2"]);
    assert r.value == [ProtectedPage("editprotected", false),
                       UnknownError("added-by-extension", "added-by-extension-message", ["param 1", "param 2"])];
    var response := Answered(Query([Page("Title", false, Some(errors))], Some(levels)));
    assert GetPermissionErrors(response, "Title") == r;
  }

  /** A custom right listed among the semi-protected levels is semi-protection. */
  lemma ExampleCustomSemiProtection()
    ensures Classify(RawError(ProtectedPageCode, Some("protectedpagetext"), Some(["extendedconfirmed", "edit"])),
                     ["autoconfirmed", "extendedconfirmed"]) ==
            Success(ProtectedPage("extendedconfirmed", true))
  {
  }

  /** A protected-page error given as text rather than raw is a technical problem. */
  lemma ExampleNonRawError()
    ensures GetPermissionErrors(Answered(Query([Page("Title", false, Some([RawError(ProtectedPageCode, None, None)]))], Some(["autoconfirmed"]))), "Title") ==
            Failure(TechnicalProblem)
  {
    assert Classify(RawError(ProtectedPageCode, None, None), ["autoconfirmed"]).Failure?;
  }
}
