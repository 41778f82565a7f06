/**
 * The Flask `/query` route: it reads "question" from the JSON body, rejects
 * a missing or falsy one with status 400, and otherwise hands it unchanged to
 * the query service and wraps the answer under "response".
 *
 * The query service (`process_query`, an agent over a SQL database) is a
 * function parameter here. It either returns an answer or raises; a raised
 * exception leaves the view function, and Flask answers status 500 with its
 * error page instead of a JSON body.
 */
module McpService {
  import opened Wrappers
  import opened Json

  /** A JSON reply with its status, or Flask's status-500 error page for an exception the view did not catch. */
  datatype Response = Reply(status: int, body: Json) | ServerError

  const NoQuestionBody: Json := JObject([("error", JStr("No question provided"))])

  /** True when the route accepts the request: "question" is present and truthy. */
  predicate HasQuestion(request: seq<(string, Json)>) {
    Lookup(request, "question").Some? && Truthy(Lookup(request, "question").value)
  }

  /**
   * What the route did with one request: the response it returned and the
   * questions it handed to the query service, in order.
   */
  datatype Handled = Handled(response: Response, calls: seq<Json>)

  /**
   * The `query` view function for a request whose JSON body is the dict
   * `request`; `processQuery` gives the service's answer, or the exception
   * it raised as a `Failure`.
   */
  function Query<E>(request: seq<(string, Json)>, processQuery: Json -> Result<Json, E>): (r: Handled)
    requires DistinctKeys(request)
    ensures !HasQuestion(request) <==> r == Handled(Reply(400, NoQuestionBody), [])
    ensures HasQuestion(request) ==> r.calls == [Lookup(request, "question").value]
    ensures HasQuestion(request) && processQuery(r.calls[0]).Success? ==>
              r.response == Reply(200, JObject([("response", processQuery(r.calls[0]).value)]))
    ensures HasQuestion(request) && processQuery(r.calls[0]).Failure? ==> r.response == ServerError
    ensures r.response.Reply? ==> r.response.status == 400 || r.response.status == 200
    ensures r.response.Reply? ==> r.response.body.JObject? && |r.response.body.members| == 1
    ensures r.response.Reply? ==> r.response.body.members[0].0 == (if r.response.status == 400 then "error" else "response")
  {
    var question := Lookup(request, "question");
    if question.None? || !Truthy(question.value) then Handled(Reply(400, NoQuestionBody), [])
    else
      match processQuery(question.value)
      case Success(answer) => Handled(Reply(200, JObject([("response", answer)])), [question.value])
      case Failure(_) => Handled(ServerError, [question.value])
  }

  /** A rejected request makes no call to the query service, and its response is the same whatever the service. */
  lemma RejectionIgnoresService<E>(request: seq<(string, Json)>, p1: Json -> Result<Json, E>, p2: Json -> Result<Json, E>)
    requires DistinctKeys(request)
    requires !HasQuestion(request)
    ensures Query(request, p1).calls == []
    ensures Query(request, p1) == Query(request, p2)
  {
  }

  /** An accepted request calls the service once, with the question itself, and its outcome depends on nothing else. */
  lemma ServiceSeesQuestionUnchanged<E>(request: seq<(string, Json)>, p1: Json -> Result<Json, E>, p2: Json -> Result<Json, E>)
    requires DistinctKeys(request)
    requires HasQuestion(request)
    requires p1(Lookup(request, "question").value) == p2(Lookup(request, "question").value)
    ensures |Query(request, p1).calls| == 1
    ensures Query(request, p1) == Query(request, p2)
  {
  }

  /**
   * The API test's shape: a non-empty question string is passed to the
   * service and, when the service answers, gets status 200 and a "response"
   * key; when it raises, the answer is the 500 page.
   */
  lemma NonEmptyQuestionAccepted<E>(question: string, rest: seq<(string, Json)>, processQuery: Json -> Result<Json, E>)
    requires DistinctKeys([("question", JStr(question))] + rest)
    requires question != []
    ensures Query([("question", JStr(question))] + rest, processQuery).calls == [JStr(question)]
    ensures processQuery(JStr(question)).Success? ==>
              Query([("question", JStr(question))] + rest, processQuery).response.Reply?
              && Query([("question", JStr(question))] + rest, processQuery).response.status == 200
              && Lookup(Query([("question", JStr(question))] + rest, processQuery).response.body.members, "response")
                 == Some(processQuery(JStr(question)).value)
    ensures processQuery(JStr(question)).Failure? ==>
              Query([("question", JStr(question))] + rest, processQuery).response == ServerError
  {
  }

  /** An empty body, or an empty question, is answered 400 with the fixed error. */
  lemma EmptyQuestionRejected<E>(rest: seq<(string, Json)>, processQuery: Json -> Result<Json, E>)
    requires DistinctKeys([("question", JStr(""))] + rest)
    ensures Query([], processQuery) == Handled(Reply(400, NoQuestionBody), [])
    ensures Query([("question", JStr(""))] + rest, processQuery) == Handled(Reply(400, NoQuestionBody), [])
  {
  }
}
