/**
 * `POST /send/:userId` (index.js:165-209): the readiness and body checks, and
 * the loop that sends to each number and records one result per number.
 * The outcome of each `sendMessage` call is an input: None when the call
 * resolved, Some(e) when it threw and `err.toString()` gave e.
 */
module Dispatch {
  import opened Wrappers
  import opened ChatId
  import opened Sessions

  /** A parsed JSON value of the request body; Undefined stands for a missing field. */
  datatype Value =
    | Str(s: string)
    | Num(n: int)
    | Bool(b: bool)
    | Null
    | Undefined
    | Arr(items: seq<Value>)
    | Obj(entries: seq<(string, Value)>)

  datatype Status = Sent | Failed(details: string) | Skipped(reason: string)

  /** One entry of `results`: the number as given and what became of it. */
  datatype Result = Result(number: Value, status: Status)

  /** A call `sendMessage(chatId, message)`. */
  datatype Call = Call(chatId: string, message: string)

  datatype SendResponse =
    | NotReady(error: string)                          // 503
    | BadRequest(error: string)                        // 400
    | Delivered(userId: string, results: seq<Result>)  // 200

  const InvalidNumberFormat: string := "Invalid number format"
  const BodyError: string := "Request body must include: numbers (array) and message (string)"

  function NotReadyError(userId: string): string {
    "Client not ready for " + userId
  }

  function HttpStatus(r: SendResponse): int {
    match r
    case NotReady(_) => 503
    case BadRequest(_) => 400
    case Delivered(_, _) => 200
  }

  /** What the handler decides before sending anything. */
  datatype Gate = Refuse(response: SendResponse) | Proceed(numbers: seq<Value>, message: string)

  /**
   * The checks of index.js:170-182, readiness first: no ready session gives
   * 503 whatever the body; then `numbers` must be a non-empty array and
   * `message` a string, or the answer is 400.
   */
  function CheckSend(userId: string, session: Option<Session>, numbers: Value, message: Value): (g: Gate)
    ensures g.Refuse? && g.response.NotReady? <==> session == None || !session.value.ready
    ensures g.Refuse? && g.response.BadRequest? <==>
      session != None && session.value.ready && !(numbers.Arr? && numbers.items != [] && message.Str?)
    ensures g.Refuse? ==> !g.response.Delivered?
    ensures g.Refuse? && g.response.NotReady? ==>
      |userId| <= |g.response.error| && g.response.error[|g.response.error| - |userId|..] == userId
    ensures g.Proceed? ==> Arr(g.numbers) == numbers && g.numbers != [] && Str(g.message) == message
  {
    if session == None || !session.value.ready then
      var e := NotReadyError(userId);
      assert e[|e| - |userId|..] == userId;
      Refuse(NotReady(e))
    else if !numbers.Arr? || |numbers.items| == 0 || !message.Str? then
      Refuse(BadRequest(BodyError))
    else
      Proceed(numbers.items, message.s)
  }

  /** The result for one number given the outcome of its send (index.js:187-205). */
  function ResultFor(number: Value, outcome: Option<string>): (r: Result)
    ensures r.number == number
    ensures r.status.Skipped? <==> !number.Str?
    ensures r.status.Skipped? ==> r.status.reason == InvalidNumberFormat
    ensures r.status == Sent <==> number.Str? && outcome == None
    ensures r.status.Failed? <==> number.Str? && outcome != None
    ensures r.status.Failed? ==> Some(r.status.details) == outcome
  {
    if !number.Str? then Result(number, Skipped(InvalidNumberFormat))
    else if outcome == None then Result(number, Sent)
    else Result(number, Failed(outcome.value))
  }

  /** The send a number causes: none for a non-string, else one to its chat id. */
  function CallsFor(number: Value, message: string): seq<Call> {
    if number.Str? then [Call(Normalize(number.s), message)] else []
  }

  /** How many of the numbers are strings (the last one counted last, like Outbox). */
  function StrCount(numbers: seq<Value>): (n: nat)
    ensures n <= |numbers|
    decreases |numbers|
  {
    if numbers == [] then 0
    else StrCount(numbers[..|numbers| - 1]) + (if numbers[|numbers| - 1].Str? then 1 else 0)
  }

  /** The `sendMessage` calls a batch makes, in order: each carries the request's message to a chat id. */
  function Outbox(numbers: seq<Value>, message: string): (calls: seq<Call>)
    ensures |calls| <= |numbers|
    ensures forall c | c in calls :: HasSuffix(c.chatId) && c.message == message
    decreases |numbers|
  {
    if numbers == [] then []
    else Outbox(numbers[..|numbers| - 1], message) + CallsFor(numbers[|numbers| - 1], message)
  }

  /**
   * A batch makes one send per string number and none for the others: the
   * number of sends is the number of strings, all of them when every number
   * is a string and none when no number is.
   */
  lemma {:induction false} OutboxCalls(numbers: seq<Value>, message: string)
    ensures |Outbox(numbers, message)| == StrCount(numbers)
    ensures (forall i | 0 <= i < |numbers| :: numbers[i].Str?) ==> |Outbox(numbers, message)| == |numbers|
    ensures (forall i | 0 <= i < |numbers| :: !numbers[i].Str?) ==> Outbox(numbers, message) == []
    decreases |numbers|
  {
    if numbers != [] {
      var init := numbers[..|numbers| - 1];
      OutboxCalls(init, message);
      assert forall i | 0 <= i < |init| :: init[i] == numbers[i];
    }
  }

  /** The i-th string number is sent to its normalised chat id at its rank among the string numbers. */
  lemma {:induction false} OutboxAt(numbers: seq<Value>, message: string, i: nat)
    requires i < |numbers| && numbers[i].Str?
    ensures |Outbox(numbers[..i], message)| < |Outbox(numbers, message)|
    ensures Outbox(numbers, message)[|Outbox(numbers[..i], message)|] == Call(Normalize(numbers[i].s), message)
    decreases |numbers|
  {
    var init := numbers[..|numbers| - 1];
    if i == |numbers| - 1 {
      assert numbers[..i] == init;
    } else {
      assert init[..i] == numbers[..i];
      OutboxAt(init, message, i);
    }
  }

  /** One more number adds its own sends at the end. */
  lemma OutboxStep(numbers: seq<Value>, message: string, i: nat)
    requires i < |numbers|
    ensures Outbox(numbers[..i + 1], message) == Outbox(numbers[..i], message) + CallsFor(numbers[i], message)
  {
    assert numbers[..i + 1][..i] == numbers[..i];
  }

  /**
   * The loop of index.js:184-206: exactly one result per number, in order,
   * and the sends it makes.
   */
  method SendBatch(numbers: seq<Value>, message: string, outcomes: seq<Option<string>>)
    returns (results: seq<Result>, calls: seq<Call>)
    requires |outcomes| == |numbers|
    ensures |results| == |numbers|
    ensures forall i | 0 <= i < |numbers| :: results[i] == ResultFor(numbers[i], outcomes[i])
    ensures calls == Outbox(numbers, message)
  {
    results, calls := [], [];
    for i := 0 to |numbers|
      invariant |results| == i
      invariant forall j | 0 <= j < i :: results[j] == ResultFor(numbers[j], outcomes[j])
      invariant calls == Outbox(numbers[..i], message)
    {
      var num := numbers[i];
      OutboxStep(numbers, message, i);
      if !num.Str? {
        results := results + [Result(num, Skipped(InvalidNumberFormat))];
      } else {
        var chatId := Normalize(num.s);
        calls := calls + [Call(chatId, message)];
        if outcomes[i] == None {
          results := results + [Result(num, Sent)];
        } else {
          results := results + [Result(num, Failed(outcomes[i].value))];
        }
      }
    }
    assert numbers[..|numbers|] == numbers;
  }

  /**
   * The handler without the registry: the gate, then the batch. Nothing is
   * sent unless the answer is 200.
   */
  method HandleSend(userId: string, session: Option<Session>, numbers: Value, message: Value,
                    outcomes: seq<Option<string>>)
    returns (response: SendResponse, calls: seq<Call>)
    requires numbers.Arr? ==> |outcomes| == |numbers.items|
    ensures response.NotReady? <==> session == None || !session.value.ready
    ensures response.BadRequest? <==>
      session != None && session.value.ready && !(numbers.Arr? && numbers.items != [] && message.Str?)
    ensures response.Delivered? ==>
      && numbers.Arr? && message.Str?
      && response.userId == userId
      && |response.results| == |numbers.items|
      && (forall i | 0 <= i < |numbers.items| :: response.results[i] == ResultFor(numbers.items[i], outcomes[i]))
      && calls == Outbox(numbers.items, message.s)
    ensures !response.Delivered? ==> CheckSend(userId, session, numbers, message) == Refuse(response)
    ensures !response.Delivered? ==> calls == []
  {
    var gate := CheckSend(userId, session, numbers, message);
    if gate.Refuse? {
      return gate.response, [];
    }
    var results;
    results, calls := SendBatch(gate.numbers, gate.message, outcomes);
    response := Delivered(userId, results);
  }

  /** The documented example: a ready session, one chat id and one bare number. */
  lemma SendExample(session: Session)
    requires session.ready
    ensures var numbers := [Str("abc@c.us"), Str("1234")];
      && CheckSend("u", Some(session), Arr(numbers), Str("hi")) == Proceed(numbers, "hi")
      && Outbox(numbers, "hi") == [Call("abc@c.us", "hi"), Call("1234@c.us", "hi")]
  {
    var numbers := [Str("abc@c.us"), Str("1234")];
    NormalizeExamples();
    assert numbers[..1] == [Str("abc@c.us")];
    assert numbers[..1][..0] == [];
  }
}
