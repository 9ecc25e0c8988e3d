/**
 * The command client of the YouTrack plugin: the two request URLs it builds (assist, i.e.
 * command completion, and execute) and how it turns an HTTP status and body into a result.
 * The HTTP call itself, connection release and latency logging are not modelled; the base URL
 * of the active repository, the status and the body are inputs. `urlencoded` is the parameter
 * `enc`, and the XML reader is the parameter `parse`.
 */
module CommandRest {
  import opened Wrappers
  import opened Text
  import opened Render
  import opened QueryString

  /** The session a command is typed in: the task it targets and its optional persistent id. */
  datatype Session = Session(taskId: string, hasEntityId: bool, compressedEntityId: Option<string>)

  /** A command being typed, with the caret position inside it. */
  datatype Command = Command(command: string, caret: int, session: Session)

  /** A command to run, with an optional comment, the silent flag and the comment's visibility group. */
  datatype CommandExecution =
    CommandExecution(command: Command, comment: Option<string>, silent: bool, commentVisibleGroup: string)

  /** What the XML reader makes of a body: its root element's name and text, or a parse error. */
  datatype Parsed = Root(name: string, text: string) | Malformed

  /** The assist response passes the body through untouched. */
  datatype AssistResponse = AssistResponse(body: string)

  datatype ExecutionResponse = ExecutionResponse(messages: seq<string>, errors: seq<string>)

  /** The XML reader's exception, which `executeCommand` lets through to its caller. */
  datatype ExecuteError = MalformedBody

  const ALL_USERS: string := "All Users"
  const ASSIST_PATH: string := "/rest/command/underlineAndSuggestAndCommands"
  const EXECUTE_PATH: string := "/rest/issue/execute/"

  /** `x?.urlencoded` inside a string template: a null is rendered as the text `null`. */
  function EncodeNullable(x: Option<string>, enc: string -> string): (r: string)
    ensures x.Some? ==> r == enc(x.value)
    ensures x.None? ==> r == "null"
    ensures UrlSafe(enc) ==> '&' !in r
  {
    match x
    case Some(v) => enc(v)
    case None => "null"
  }

  // ---------------------------------------------------------------------------------------
  // URLs

  /** The `intellisenseCommandUrl` getter. */
  function AssistUrl(base: string, c: Command, enc: string -> string): (r: string)
    ensures base + ASSIST_PATH + "?command=" + enc(c.command) <= r
  {
    var assistUrl := base + ASSIST_PATH;
    var result := assistUrl + "?command=" + enc(c.command) + "&caret=" + IntToString(c.caret)
                  + "&noIssuesContext=false";
    if c.session.hasEntityId then
      result + "&issueIds=" + EncodeNullable(c.session.compressedEntityId, enc)
    else
      result + "&query=" + c.session.taskId
  }

  /** The parameters the assist URL is meant to carry, in order. */
  function AssistParams(c: Command, enc: string -> string): seq<Param>
  {
    [Param("command", enc(c.command)), Param("caret", IntToString(c.caret)), Param("noIssuesContext", "false")]
    + if c.session.hasEntityId then [Param("issueIds", EncodeNullable(c.session.compressedEntityId, enc))]
      else [Param("query", c.session.taskId)]
  }

  /** The `executeCommandUrl` getter. */
  function ExecuteUrl(base: string, e: CommandExecution, enc: string -> string): (r: string)
    ensures base + EXECUTE_PATH + e.command.session.taskId + "?" + "command=" + enc(e.command.command) <= r
  {
    var c := e.command;
    var execUrl := base + EXECUTE_PATH + c.session.taskId;
    var params := "command=" + enc(c.command) + "&comment=" + EncodeNullable(e.comment, enc)
                  + "&disableNotifications=" + BoolToString(e.silent);
    var withGroup := if e.commentVisibleGroup != ALL_USERS then params + "&group=" + enc(e.commentVisibleGroup)
                     else params;
    execUrl + "?" + withGroup
  }

  /** The parameters the execute URL is meant to carry, in order. */
  function ExecuteParams(e: CommandExecution, enc: string -> string): seq<Param>
  {
    [Param("command", enc(e.command.command)), Param("comment", EncodeNullable(e.comment, enc)),
     Param("disableNotifications", BoolToString(e.silent))]
    + if e.commentVisibleGroup != ALL_USERS then [Param("group", enc(e.commentVisibleGroup))] else []
  }

  /** An encoder whose output never holds the query separator, as percent-encoding guarantees. */
  ghost predicate UrlSafe(enc: string -> string)
  {
    forall s :: '&' !in enc(s)
  }

  lemma IntToStringSafe(n: int)
    ensures '&' !in IntToString(n) && '=' !in IntToString(n)
  {
    var s := IntToString(n);
    forall i | 0 <= i < |s|
      ensures s[i] != '&' && s[i] != '='
    {
    }
  }

  /**
   * The assist URL starts with the command, caret and context parameters, and ends with the
   * encoded entity id when the session has one, and with the task id, not encoded, otherwise.
   */
  lemma AssistUrlShape(base: string, c: Command, enc: string -> string)
    ensures var prefix := base + ASSIST_PATH + "?command=" + enc(c.command) + "&caret="
                          + IntToString(c.caret) + "&noIssuesContext=false";
            var url := AssistUrl(base, c, enc);
            && prefix <= url
            && (c.session.hasEntityId ==>
                  url == prefix + "&issueIds=" + EncodeNullable(c.session.compressedEntityId, enc))
            && (!c.session.hasEntityId ==> url == prefix + "&query=" + c.session.taskId)
  {
  }

  /** The string rearrangement behind AssistUrlIsQuery, on plain strings. */
  lemma AssistConcat(prefix: string, command: string, caret: string, key: string, value: string)
    ensures prefix + "?command=" + command + "&caret=" + caret + "&noIssuesContext=false" + ("&" + key + "=") + value
            == prefix + "?" + (("command" + "=" + command) + "&" + ("caret" + "=" + caret)
                               + "&" + ("noIssuesContext" + "=" + "false") + "&" + (key + "=" + value))
  {
    var q, amp, eq := "?", "&", "=";
    var kCommand, kCaret, kContext, no := "command", "caret", "noIssuesContext", "false";
    assert "?command=" == q + kCommand + eq;
    assert "&caret=" == amp + kCaret + eq;
    assert "&noIssuesContext=false" == amp + (kContext + eq + no);
    Reassociate4(prefix, q, kCommand, eq, command, amp, kCaret, caret, kContext + eq + no, key, value);
  }

  /** Associativity of the assist URL's concatenation, with every piece a variable. */
  lemma Reassociate4(p: string, q: string, k1: string, eq: string, v1: string, amp: string, k2: string, v2: string,
                     p3: string, k4: string, v4: string)
    ensures p + (q + k1 + eq) + v1 + (amp + k2 + eq) + v2 + (amp + p3) + (amp + k4 + eq) + v4
            == p + q + ((k1 + eq + v1) + amp + (k2 + eq + v2) + amp + p3 + amp + (k4 + eq + v4))
  {
  }

  lemma AssistUrlIsQuery(base: string, c: Command, enc: string -> string)
    ensures AssistUrl(base, c, enc) == base + ASSIST_PATH + "?" + Query(AssistParams(c, enc))
  {
    var p0, p1, p2 := Param("command", enc(c.command)), Param("caret", IntToString(c.caret)),
                      Param("noIssuesContext", "false");
    var p3, segment;
    if c.session.hasEntityId {
      p3 := Param("issueIds", EncodeNullable(c.session.compressedEntityId, enc));
      segment := "&issueIds=";
    } else {
      p3 := Param("query", c.session.taskId);
      segment := "&query=";
    }
    assert segment == "&" + p3.key + "=";
    AssistUrlShape(base, c, enc);
    assert AssistUrl(base, c, enc) == base + ASSIST_PATH + "?command=" + p0.value + "&caret=" + p1.value
                                      + "&noIssuesContext=false" + segment + p3.value;
    assert AssistParams(c, enc) == [p0, p1, p2, p3];
    QueryOfFour(p0, p1, p2, p3);
    AssistConcat(base + ASSIST_PATH, p0.value, p1.value, p3.key, p3.value);
  }

  /** With a URL-safe encoder and a task id without `&`, every assist parameter survives rendering and reading back. */
  lemma AssistParamsSafe(c: Command, enc: string -> string)
    requires UrlSafe(enc)
    requires '&' !in c.session.taskId
    ensures forall i :: 0 <= i < |AssistParams(c, enc)| ==> Safe(AssistParams(c, enc)[i])
  {
    var ps := AssistParams(c, enc);
    var command, caret := enc(c.command), IntToString(c.caret);
    var id, task := EncodeNullable(c.session.compressedEntityId, enc), c.session.taskId;
    IntToStringSafe(c.caret);
    assert '&' !in command && '&' !in id;
    AssistKeysSafe();
    forall i | 0 <= i < |ps|
      ensures Safe(ps[i])
    {
      assert ps[i] == Param("command", command) || ps[i] == Param("caret", caret)
          || ps[i] == Param("noIssuesContext", "false") || ps[i] == Param("issueIds", id)
          || ps[i] == Param("query", task);
    }
  }

  lemma AssistKeysSafe()
    ensures '=' !in "command" && '&' !in "command"
    ensures '=' !in "caret" && '&' !in "caret"
    ensures '=' !in "noIssuesContext" && '&' !in "noIssuesContext" && '&' !in "false"
    ensures '=' !in "issueIds" && '&' !in "issueIds"
    ensures '=' !in "query" && '&' !in "query"
  {
  }

  /**
   * The text after the path and `?` of the assist URL reads back as exactly the
   * parameters of AssistParams, so `issueIds` is sent iff the session has an entity id and
   * `query` iff it has none, provided the task id holds no `&` (it is not encoded).
   */
  lemma AssistUrlParameters(base: string, c: Command, enc: string -> string)
    requires UrlSafe(enc)
    requires '&' !in c.session.taskId
    ensures var url := AssistUrl(base, c, enc);
            var q := url[|base + ASSIST_PATH| + 1..];
            && |base + ASSIST_PATH| < |url|
            && url == base + ASSIST_PATH + "?" + q
            && ParseQuery(q) == AssistParams(c, enc)
  {
    var ps := AssistParams(c, enc);
    var prefix := base + ASSIST_PATH;
    AssistUrlIsQuery(base, c, enc);
    assert (prefix + "?" + Query(ps))[|prefix| + 1..] == Query(ps);
    AssistParamsSafe(c, enc);
    QueryRoundTrip(ps);
  }

  /** The assist parameters carry `issueIds` iff the session has an entity id, `query` otherwise. */
  lemma AssistParamsLookup(c: Command, enc: string -> string)
    ensures Lookup(AssistParams(c, enc), "command") == Some(enc(c.command))
    ensures Lookup(AssistParams(c, enc), "caret") == Some(IntToString(c.caret))
    ensures Lookup(AssistParams(c, enc), "issueIds") ==
            if c.session.hasEntityId then Some(EncodeNullable(c.session.compressedEntityId, enc)) else None
    ensures Lookup(AssistParams(c, enc), "query") ==
            if c.session.hasEntityId then None else Some(c.session.taskId)
  {
    var p0, p1, p2 := Param("command", enc(c.command)), Param("caret", IntToString(c.caret)),
                      Param("noIssuesContext", "false");
    var id := EncodeNullable(c.session.compressedEntityId, enc);
    var rest := if c.session.hasEntityId then [Param("issueIds", id)] else [Param("query", c.session.taskId)];
    assert AssistParams(c, enc) == [p0, p1, p2] + rest;
    AssistKeysDistinct();
    LookupAfterThree(p0, p1, p2, rest, "command");
    LookupAfterThree(p0, p1, p2, rest, "caret");
    LookupAfterThree(p0, p1, p2, rest, "issueIds");
    LookupAfterThree(p0, p1, p2, rest, "query");
  }

  lemma AssistKeysDistinct()
    ensures "caret" != "command"
    ensures "issueIds" != "command" && "issueIds" != "caret" && "issueIds" != "noIssuesContext"
    ensures "query" != "command" && "query" != "caret" && "query" != "noIssuesContext" && "query" != "issueIds"
  {
    assert "query"[0] != "caret"[0];
  }

  /** Dropping the group gives a prefix: the group segment is the only difference, and it is
      there iff the group is not the `All Users` sentinel. */
  lemma ExecuteUrlGroupSegment(base: string, e: CommandExecution, enc: string -> string)
    ensures ExecuteUrl(base, e, enc) ==
            ExecuteUrl(base, e.(commentVisibleGroup := ALL_USERS), enc)
            + if e.commentVisibleGroup != ALL_USERS then "&group=" + enc(e.commentVisibleGroup) else ""
  {
  }

  /** The string rearrangement behind ExecuteUrlIsQuery, on plain strings. */
  lemma ExecuteConcat(command: string, comment: string, silent: string, group: string)
    ensures "command=" + command + "&comment=" + comment + "&disableNotifications=" + silent
            == ("command" + "=" + command) + "&" + ("comment" + "=" + comment)
               + "&" + ("disableNotifications" + "=" + silent)
    ensures "command=" + command + "&comment=" + comment + "&disableNotifications=" + silent + "&group=" + group
            == ("command" + "=" + command) + "&" + ("comment" + "=" + comment)
               + "&" + ("disableNotifications" + "=" + silent) + "&" + ("group" + "=" + group)
  {
    var amp, eq := "&", "=";
    var kCommand, kComment, kSilent, kGroup := "command", "comment", "disableNotifications", "group";
    assert "command=" == kCommand + eq;
    assert "&comment=" == amp + kComment + eq;
    assert "&disableNotifications=" == amp + kSilent + eq;
    assert "&group=" == amp + kGroup + eq;
    Reassociate3(kCommand, eq, command, amp, kComment, comment, kSilent, silent);
    var three := "command=" + command + "&comment=" + comment + "&disableNotifications=" + silent;
    Reassociate1(three, amp, kGroup, eq, group);
  }

  /** Associativity of the execute URL's three-parameter concatenation, with every piece a variable. */
  lemma Reassociate3(k1: string, eq: string, v1: string, amp: string, k2: string, v2: string, k3: string, v3: string)
    ensures (k1 + eq) + v1 + (amp + k2 + eq) + v2 + (amp + k3 + eq) + v3
            == (k1 + eq + v1) + amp + (k2 + eq + v2) + amp + (k3 + eq + v3)
  {
  }

  lemma Reassociate1(head: string, amp: string, k: string, eq: string, v: string)
    ensures head + (amp + k + eq) + v == head + amp + (k + eq + v)
  {
  }

  lemma ExecuteUrlIsQuery(base: string, e: CommandExecution, enc: string -> string)
    ensures ExecuteUrl(base, e, enc) ==
            base + EXECUTE_PATH + e.command.session.taskId + "?" + Query(ExecuteParams(e, enc))
  {
    var p0, p1, p2 := Param("command", enc(e.command.command)), Param("comment", EncodeNullable(e.comment, enc)),
                      Param("disableNotifications", BoolToString(e.silent));
    var path := base + EXECUTE_PATH + e.command.session.taskId;
    ExecuteConcat(p0.value, p1.value, p2.value, enc(e.commentVisibleGroup));
    if e.commentVisibleGroup != ALL_USERS {
      var p3 := Param("group", enc(e.commentVisibleGroup));
      assert ExecuteParams(e, enc) == [p0, p1, p2, p3];
      QueryOfFour(p0, p1, p2, p3);
    } else {
      assert ExecuteParams(e, enc) == [p0, p1, p2];
      QueryOfThree(p0, p1, p2);
    }
  }

  /** With a URL-safe encoder every execute parameter survives rendering and reading back. */
  lemma ExecuteParamsSafe(e: CommandExecution, enc: string -> string)
    requires UrlSafe(enc)
    ensures forall i :: 0 <= i < |ExecuteParams(e, enc)| ==> Safe(ExecuteParams(e, enc)[i])
  {
    var ps := ExecuteParams(e, enc);
    var command, comment := enc(e.command.command), EncodeNullable(e.comment, enc);
    var silent, group := BoolToString(e.silent), enc(e.commentVisibleGroup);
    assert '&' !in command && '&' !in comment && '&' !in silent && '&' !in group;
    ExecuteKeysSafe();
    forall i | 0 <= i < |ps|
      ensures Safe(ps[i])
    {
      assert ps[i] == Param("command", command) || ps[i] == Param("comment", comment)
          || ps[i] == Param("disableNotifications", silent) || ps[i] == Param("group", group);
    }
  }

  lemma ExecuteKeysSafe()
    ensures '=' !in "command" && '&' !in "command"
    ensures '=' !in "comment" && '&' !in "comment"
    ensures '=' !in "disableNotifications" && '&' !in "disableNotifications"
    ensures '=' !in "group" && '&' !in "group"
  {
  }

  /**
   * The text after the path, the task id and `?` of the execute URL reads back as exactly
   * the parameters of ExecuteParams.
   */
  lemma ExecuteUrlParameters(base: string, e: CommandExecution, enc: string -> string)
    requires UrlSafe(enc)
    ensures var path := base + EXECUTE_PATH + e.command.session.taskId;
            var url := ExecuteUrl(base, e, enc);
            var q := url[|path| + 1..];
            && |path| < |url|
            && url == path + "?" + q
            && ParseQuery(q) == ExecuteParams(e, enc)
  {
    var ps := ExecuteParams(e, enc);
    var path := base + EXECUTE_PATH + e.command.session.taskId;
    ExecuteUrlIsQuery(base, e, enc);
    assert (path + "?" + Query(ps))[|path| + 1..] == Query(ps);
    ExecuteParamsSafe(e, enc);
    QueryRoundTrip(ps);
  }

  /** The execute parameters carry `group` iff the group is not the `All Users` sentinel. */
  lemma ExecuteParamsLookup(e: CommandExecution, enc: string -> string)
    ensures Lookup(ExecuteParams(e, enc), "command") == Some(enc(e.command.command))
    ensures Lookup(ExecuteParams(e, enc), "comment") == Some(EncodeNullable(e.comment, enc))
    ensures Lookup(ExecuteParams(e, enc), "disableNotifications") == Some(BoolToString(e.silent))
    ensures Lookup(ExecuteParams(e, enc), "group") ==
            if e.commentVisibleGroup != ALL_USERS then Some(enc(e.commentVisibleGroup)) else None
  {
    var p0, p1, p2 := Param("command", enc(e.command.command)), Param("comment", EncodeNullable(e.comment, enc)),
                      Param("disableNotifications", BoolToString(e.silent));
    var rest := if e.commentVisibleGroup != ALL_USERS then [Param("group", enc(e.commentVisibleGroup))] else [];
    assert ExecuteParams(e, enc) == [p0, p1, p2] + rest;
    ExecuteKeysDistinct();
    LookupAfterThree(p0, p1, p2, rest, "command");
    LookupAfterThree(p0, p1, p2, rest, "comment");
    LookupAfterThree(p0, p1, p2, rest, "disableNotifications");
    LookupAfterThree(p0, p1, p2, rest, "group");
  }

  lemma ExecuteKeysDistinct()
    ensures "comment" != "command"
    ensures "disableNotifications" != "command" && "disableNotifications" != "comment"
    ensures "group" != "command" && "group" != "comment" && "group" != "disableNotifications"
  {
    assert "comment"[4] != "command"[4];
  }

  // ---------------------------------------------------------------------------------------
  // Outcomes

  /** The message of the exception `assistCommand` throws for a non-200 status. */
  function HttpErrorMessage(status: int, body: string): (r: string)
    ensures |r| >= |body| + 8
    ensures r[..5] == "HTTP " && r[|r| - |body| - 2..] == ": " + body
  {
    "HTTP " + IntToString(status) + ": " + body
  }

  /** Reads the status and the body back out of an `HTTP <status>: <body>` message. */
  function ParseHttpError(msg: string): Option<(int, string)>
  {
    if |msg| >= 5 && msg[..5] == "HTTP " && ':' in msg[5..] then
      var rest := msg[5..];
      var i := IndexOf(rest, ':');
      if i + 1 < |rest| && rest[i + 1] == ' ' then
        match ParseInt(rest[..i])
        case Some(n) => Some((n, rest[i + 2..]))
        case None => None
      else None
    else None
  }

  /** The failure message loses nothing: both the status and the whole body can be read back. */
  lemma HttpErrorMessageRoundTrip(status: int, body: string)
    ensures ParseHttpError(HttpErrorMessage(status, body)) == Some((status, body))
  {
    var digits := IntToString(status);
    var msg := HttpErrorMessage(status, body);
    assert ':' !in digits by {
      forall i | 0 <= i < |digits| ensures digits[i] != ':' { }
    }
    var rest := digits + [':'] + (" " + body);
    assert msg[..5] == "HTTP " && msg[5..] == rest;
    IndexOfAfter(digits, ':', " " + body);
    assert rest[..|digits|] == digits;
    assert rest[|digits| + 2..] == body;
    IntToStringRoundTrip(status);
  }

  /** `assistCommand` after the HTTP call: 200 passes the body through, anything else throws. */
  function AssistOutcome(status: int, body: string): (r: Result<AssistResponse, string>)
    ensures r.Success? <==> status == 200
    ensures r.Success? ==> r.value.body == body
    ensures r.Failure? ==> r.error == HttpErrorMessage(status, body)
    ensures r.Failure? ==> ParseHttpError(r.error) == Some((status, body))
  {
    if status == 200 then Success(AssistResponse(body))
    else
      HttpErrorMessageRoundTrip(status, body);
      Failure(HttpErrorMessage(status, body))
  }

  /**
   * `executeCommand` after the HTTP call. The body is parsed only for a non-200 status; a root
   * named `error` is a rejection, any other root a notice, and a parse error propagates.
   */
  function ExecuteOutcome(status: int, body: string, parse: string -> Parsed): (r: Result<ExecutionResponse, ExecuteError>)
    ensures status == 200 ==> r == Success(ExecutionResponse([], []))
    ensures r.Failure? <==> status != 200 && parse(body).Malformed?
  {
    if status != 200 then
      match parse(body)
      case Root(name, text) =>
        if "error" == name then Success(ExecutionResponse([], [text]))
        else Success(ExecutionResponse([text], []))
      case Malformed => Failure(MalformedBody)
    else Success(ExecutionResponse([], []))
  }

  /**
   * A well-formed non-200 body yields exactly one entry, the root's text: in `errors` iff the
   * root is named `error`, in `messages` otherwise.
   */
  lemma ExecuteOutcomeOneEntry(status: int, body: string, parse: string -> Parsed)
    requires status != 200 && parse(body).Root?
    ensures var r := ExecuteOutcome(status, body, parse);
            && r.Success?
            && |r.value.messages| + |r.value.errors| == 1
            && (|r.value.errors| == 1 <==> parse(body).name == "error")
            && r.value.messages + r.value.errors == [parse(body).text]
  {
  }

  /** An empty response means status 200 and nothing else, whatever the body. */
  lemma ExecuteOutcomeEmptyIffOk(status: int, body: string, parse: string -> Parsed)
    ensures ExecuteOutcome(status, body, parse) == Success(ExecutionResponse([], [])) <==> status == 200
  {
  }
}
