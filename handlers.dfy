/** The status decision of the HTTP handlers (internal/handlers/helpers.go)
    and how a handler reads the (status, error) pair the service returns
    (internal/handlers/user.go). Writing the response itself is not modelled. */
module Handlers {
  import opened Base
  import opened Strconv
  import Service

  /** The branch `identifyStatus` takes. */
  datatype Branch = ServerErrorBranch | ClientErrorBranch | UnknownStatusBranch

  /** The branch taken and the status code written. */
  datatype Reply = Reply(branch: Branch, code: int)

  /** identifyStatus: 500 and up is a server error, answered with 500
      whatever the exact code; 400 to 499 is a client error answered with
      the code itself; anything lower logs "Unknown status" and is also
      answered with the code itself. */
  function IdentifyStatus(status: int): (r: Reply)
    ensures r.branch == ServerErrorBranch <==> status >= 500
    ensures r.branch == ClientErrorBranch <==> 400 <= status < 500
    ensures r.branch == UnknownStatusBranch <==> status < 400
    ensures r.code == if r.branch == ServerErrorBranch then StatusInternalServerError else status
  {
    if status >= 500 then Reply(ServerErrorBranch, StatusInternalServerError)
    else if status >= 400 then Reply(ClientErrorBranch, status)
    else Reply(UnknownStatusBranch, status)
  }

  /** The classes of status codes of section 15 of RFC 9110, named by the
      first digit of the three-digit code. */
  datatype StatusClass = Informational | Successful | Redirection | ClientErrorClass | ServerErrorClass

  function ClassOf(code: int): StatusClass
    requires 100 <= code <= 599
  {
    var digit := code / 100;
    if digit == 1 then Informational
    else if digit == 2 then Successful
    else if digit == 3 then Redirection
    else if digit == 4 then ClientErrorClass
    else ServerErrorClass
  }

  /** On the codes RFC 9110 defines, the server-error branch is exactly
      class 5xx (section 15.6), the client-error branch exactly class 4xx
      (section 15.5), and the "Unknown status" branch exactly the classes
      1xx, 2xx and 3xx. */
  lemma BranchesFollowStatusClasses(code: int)
    requires 100 <= code <= 599
    ensures IdentifyStatus(code).branch == ServerErrorBranch <==> ClassOf(code) == ServerErrorClass
    ensures IdentifyStatus(code).branch == ClientErrorBranch <==> ClassOf(code) == ClientErrorClass
    ensures IdentifyStatus(code).branch == UnknownStatusBranch <==>
      ClassOf(code) in {Informational, Successful, Redirection}
  {
  }

  /** What a handler writes for the service's answer. */
  datatype Response =
    | Acknowledged          // 200 and the "... successfully." message
    | Failed(reply: Reply)  // the response identifyStatus writes

  /** The handlers look only at the error: any non-nil error goes to
      identifyStatus with the returned status, a nil error is reported as
      success whatever the status. */
  function RespondTo(status: int, err: Option<Error>): (r: Response)
    ensures r.Acknowledged? <==> err.None?
    ensures r.Failed? ==> r.reply == IdentifyStatus(status)
  {
    if err.Some? then Failed(IdentifyStatus(status)) else Acknowledged
  }

  /** An id that does not parse is answered 404 on the client-error path. */
  lemma MalformedIdIsNotFound(idStr: string)
    requires Atoi(idStr).None?
    ensures var c := Service.CheckId(idStr);
      c.Rejected? && RespondTo(c.status, c.err) == Failed(Reply(ClientErrorBranch, StatusNotFound))
  {
  }

  /** An id that parses to a value below 1 is rejected with (404, nil), and
      the handler, seeing no error, answers 200 "updated successfully" or
      "deleted successfully" although nothing was written. */
  lemma NonPositiveIdAcknowledged(idStr: string)
    requires Atoi(idStr).Some? && Atoi(idStr).value < 1
    ensures var c := Service.CheckId(idStr);
      c.Rejected? && c.status == StatusNotFound && RespondTo(c.status, c.err) == Acknowledged
  {
  }

  /** Every failure the service reports is answered with its own code:
      404 on the client-error path, 500 on the server-error path. */
  lemma ServiceFailuresAnswered(e: Error)
    ensures RespondTo(StatusNotFound, Some(e)) == Failed(Reply(ClientErrorBranch, 404))
    ensures RespondTo(StatusInternalServerError, Some(e)) == Failed(Reply(ServerErrorBranch, 500))
  {
  }
}
