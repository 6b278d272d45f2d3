/**
 * What the platform and the device hand back to a provisioning screen, as
 * outcome values: the network the platform associated, the HTTP exchange
 * with the device, and the failures that end a flow.
 */
module Exchange {
  import opened Wrappers
  import opened JsonValue

  /** An opaque handle for the device's access-point network. */
  type Network = nat

  /** The only status the screens accept: 200, "OK" in section 15.3.1 of RFC 9110. */
  const HTTP_OK: int := 200

  /** The response text as the JSON library read it. */
  datatype Body = Parsed(fields: Object) | Malformed

  /** One POST to the device: a status and a body, or an exception from the connection. */
  datatype HttpOutcome = Response(code: int, body: Body) | Throws

  datatype Failure =
    | PermissionDenied
    | DeviceNotFound
    | RequestRejected      // SecurityException from the network request
    | Status(code: int)    // a response other than 200
    | BadResponse(error: JsonError)
    | Transport            // the connection threw
    | InvalidPath          // the store refused a document path built from the response
    | SaveFailed

  /**
   * The status check of the `try` block: the parsed body of a 200 response,
   * or the exception that ends the block.
   */
  function AcceptedBody(outcome: HttpOutcome): (r: Result<Object, Failure>)
    ensures r.Success? <==> outcome.Response? && outcome.code == HTTP_OK && outcome.body.Parsed?
    ensures r.Success? ==> r.value == outcome.body.fields
    ensures outcome.Response? && outcome.code != HTTP_OK ==> r == Failure(Status(outcome.code))
    ensures outcome.Response? && outcome.code == HTTP_OK && outcome.body.Malformed? ==> r == Failure(BadResponse(Unparseable))
    ensures outcome.Throws? ==> r == Failure(Transport)
  {
    match outcome
    case Throws => Failure(Transport)
    case Response(code, body) =>
      if code != HTTP_OK then Failure(Status(code))
      else match body
        case Malformed => Failure(BadResponse(Unparseable))
        case Parsed(fields) => Success(fields)
  }

  /** The response text: the lines `readLine` returned, each without its terminator, appended in order. */
  function Joined(lines: seq<string>): string {
    if lines == [] then "" else Joined(lines[..|lines| - 1]) + lines[|lines| - 1]
  }

  lemma {:induction false} JoinedAppend(lines: seq<string>, more: seq<string>)
    ensures Joined(lines + more) == Joined(lines) + Joined(more)
    decreases |more|
  {
    if more == [] {
      assert lines + more == lines;
    } else {
      var front := more[..|more| - 1];
      assert (lines + more)[..|lines + more| - 1] == lines + front;
      JoinedAppend(lines, front);
    }
  }

  /** The text holds exactly the characters of the lines, and no line break of its own: breaks between lines are dropped. */
  lemma {:induction false} JoinedAddsNothing(lines: seq<string>, c: char)
    ensures c in Joined(lines) <==> exists i :: 0 <= i < |lines| && c in lines[i]
  {
    if lines != [] {
      var front := lines[..|lines| - 1];
      JoinedAddsNothing(front, c);
      if c in Joined(lines) && c !in Joined(front) {
        assert c in lines[|lines| - 1];
      }
      if c in Joined(front) {
        var i :| 0 <= i < |front| && c in front[i];
        assert lines[i] == front[i];
      }
    }
  }

  /** The read loop of both screens: append each line until `readLine` returns null. */
  method ReadResponse(lines: seq<string>) returns (response: string)
    ensures response == Joined(lines)
  {
    response := "";
    var i := 0;
    while i < |lines|
      invariant 0 <= i <= |lines|
      invariant response == Joined(lines[..i])
    {
      JoinedAppend(lines[..i], [lines[i]]);
      assert lines[..i] + [lines[i]] == lines[..i + 1];
      response := response + lines[i];
      i := i + 1;
    }
    assert lines[..i] == lines;
  }
}
