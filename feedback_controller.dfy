/** The feedback controller: the form's fields are checked, the email
    address is matched against `/^[^\s@]+@[^\s@]+\.[^\s@]+$/`, a subject is
    composed, and the mail is handed to the mail service, whose reply
    decides the response. The route runs under `asyncHandler`. */
module FeedbackController {
  import opened Js
  import opened Text
  import opened Options
  import opened Http
  import Seqs

  const Label := "Vidoza Feedback"
  const From := "Vidoza Feedback <onboarding@resend.dev>"
  const FieldsRequired := "Name, email and message are required"
  const InvalidEmail := "Invalid email address"
  const SendFailed := "Failed to send feedback. Please try again later."
  const Sent := "Feedback sent successfully!"

  /** `[^\s@]`: any character but white space and `@`. */
  predicate Plain(c: char) {
    !IsWhitespace(c) && c != '@'
  }

  /** What the regular expression accepts, position by position: an `@` at
      `at` with text before it, a `.` at `dot` with text on both sides
      between the `@` and the end, and no other `@` or white space. Since
      `[^\s@]` also admits `.`, any dot of the domain part may serve. */
  predicate EmailRegexMatches(s: string) {
    exists at, dot ::
      && 0 < at && at + 1 < dot < |s| - 1
      && s[at] == '@' && s[dot] == '.'
      && forall i :: 0 <= i < |s| && i != at ==> Plain(s[i])
  }

  /** The domain part has a dot that is neither its first nor its last
      character. */
  predicate HasInnerDot(d: string) {
    |d| >= 3 && '.' in d[1..|d| - 1]
  }

  /** A direct test: no white space, the first `@` has text before it and
      no `@` after it, and the text after it has an inner dot. */
  function IsEmail(s: string): bool {
    (forall i :: 0 <= i < |s| ==> !IsWhitespace(s[i]))
    && match Seqs.FindIndex(s, (c: char) => c == '@')
       case None => false
       case Some(at) => at > 0 && '@' !in s[at + 1..] && HasInnerDot(s[at + 1..])
  }

  /** The direct test accepts exactly what the regular expression matches. */
  lemma IsEmailIffRegex(s: string)
    ensures IsEmail(s) <==> EmailRegexMatches(s)
  {
    var first := Seqs.FindIndex(s, (c: char) => c == '@');
    if IsEmail(s) {
      var at := first.value;
      var d := s[at + 1..];
      var j :| 0 <= j < |d[1..|d| - 1]| && d[1..|d| - 1][j] == '.';
      var dot := at + 2 + j;
      assert s[dot] == '.';
      forall i | 0 <= i < |s| && i != at ensures Plain(s[i]) {
        if i > at {
          assert s[i] == d[i - at - 1];
        }
      }
      assert 0 < at && at + 1 < dot < |s| - 1;
    }
    if EmailRegexMatches(s) {
      var at, dot :| && 0 < at && at + 1 < dot < |s| - 1
        && s[at] == '@' && s[dot] == '.'
        && forall i :: 0 <= i < |s| && i != at ==> Plain(s[i]);
      assert first.Some? && first.value == at by {
        assert first.Some?;
        assert !Plain(s[first.value]);
      }
      var d := s[at + 1..];
      assert '@' !in d by {
        forall k | 0 <= k < |d| ensures d[k] != '@' {
          assert d[k] == s[at + 1 + k];
        }
      }
      assert d[1..|d| - 1][dot - at - 2] == '.';
      assert forall i :: 0 <= i < |s| ==> !IsWhitespace(s[i]);
    }
  }

  /** A typical address passes. */
  lemma EmailAccepted()
    ensures IsEmail("a@b.co")
  {
    assert Seqs.FindIndex("a@b.co", (c: char) => c == '@') == Some(1);
    assert "a@b.co"[2..][1..3] == ".c";
  }

  /** A domain without a dot and an empty local part are refused. */
  lemma EmailNeedsDotAndLocalPart()
    ensures !IsEmail("a@bco") && !IsEmail("@b.co")
  {
    assert Seqs.FindIndex("a@bco", (c: char) => c == '@') == Some(1);
    assert Seqs.FindIndex("@b.co", (c: char) => c == '@') == Some(0);
  }

  /** A second `@` is refused. */
  lemma EmailRefusesSecondAt()
    ensures !IsEmail("a@b@c.co")
  {
    assert Seqs.FindIndex("a@b@c.co", (c: char) => c == '@') == Some(1);
    assert "a@b@c.co"[2..][1] == '@';
  }

  /** A dot right after the `@` is refused. */
  lemma EmailRefusesEmptyLabel()
    ensures !IsEmail("a@.co")
  {
    assert Seqs.FindIndex("a@.co", (c: char) => c == '@') == Some(1);
    assert "a@.co"[2..][1..2] == "c";
  }

  /** `feedbackSubject`. `subject?.trim()` calls `trim` on any subject that
      is not `null` or `undefined`; on anything but a string that call
      throws a TypeError, which `None` stands for. A usable subject is put
      in as given, untrimmed. */
  function SubjectLine(subject: Value, name: Value): (line: Option<string>)
    ensures Nullish(subject) ==> line == Some("[" + Label + "] New feedback from " + ToStr(name))
    ensures subject.Str? && Trim(subject.s) != "" ==> line == Some("[" + Label + "] " + subject.s)
    ensures subject.Str? && Trim(subject.s) == "" ==> line == Some("[" + Label + "] New feedback from " + ToStr(name))
    ensures line.None? <==> !Nullish(subject) && !subject.Str?
  {
    var trimmed: Option<Value> :=
      if Nullish(subject) then Some(Undefined)
      else if subject.Str? then Some(Str(Trim(subject.s)))
      else None;
    match trimmed
    case None => None
    case Some(t) =>
      if Truthy(t) then Some("[" + Label + "] " + ToStr(subject))
      else Some("[" + Label + "] New feedback from " + ToStr(name))
  }

  /** The fields the mail's HTML table shows: the subject cell is
      `subject || "N/A"`. */
  datatype Body = Body(name: string, email: string, subject: string, message: string)

  function MailBody(name: Value, email: Value, subject: Value, message: Value): (b: Body)
    ensures !Truthy(subject) ==> b.subject == "N/A"
    ensures Truthy(subject) ==> b.subject == ToStr(subject)
    ensures b.name == ToStr(name) && b.email == ToStr(email) && b.message == ToStr(message)
  {
    Body(ToStr(name), ToStr(email), ToStr(Or(subject, Str("N/A"))), ToStr(message))
  }

  /** What is handed to the mail service. */
  datatype Mail = Mail(from: string, subject: string, body: Body, tags: map<string, string>)

  /** The mail service's reply `{data, error}`. */
  datatype Reply = Reply(data: Value, error: Value)

  /** The mail service: a reply, or a rejection. */
  type Send = Mail -> Result<Reply, Failure>

  /** `feedbackController(req.body)`. */
  function Feedback(body: Value, send: Send): (o: Outcome)
    ensures Nullish(body) ==> o == Thrown(TypeError)
  {
    if Nullish(body) then Thrown(TypeError)
    else
      var name, email, subject, message := Prop(body, "name"), Prop(body, "email"), Prop(body, "subject"), Prop(body, "message");
      if !Truthy(name) || !Truthy(email) || !Truthy(message) then Responded(Error(400, FieldsRequired))
      else if !IsEmail(ToStr(email)) then Responded(Error(400, InvalidEmail))
      else
        match SubjectLine(subject, name)
        case None => Thrown(TypeError)
        case Some(line) =>
          var mail := Mail(From, line, MailBody(name, email, subject, message), map["category" := "feedback"]);
          match send(mail)
          case Err(e) => Thrown(e)
          case Ok(reply) =>
            if Truthy(reply.error) then Responded(Error(500, SendFailed))
            else Responded(Response(Num(200), Obj(map["message" := Str(Sent), "id" := Prop(reply.data, "id")])))
  }

  /** A missing name, email or message answers 400 before anything else:
      the mail service is not called. */
  lemma MissingFieldMakesNoSend(body: Value, s1: Send, s2: Send)
    requires !Nullish(body)
    requires !Truthy(Prop(body, "name")) || !Truthy(Prop(body, "email")) || !Truthy(Prop(body, "message"))
    ensures Feedback(body, s1) == Feedback(body, s2) == Responded(Error(400, FieldsRequired))
  {
  }

  /** With the fields present, an address the expression does not match
      answers 400 without a send. */
  lemma BadEmailMakesNoSend(body: Value, s1: Send, s2: Send)
    requires !Nullish(body)
    requires Truthy(Prop(body, "name")) && Truthy(Prop(body, "email")) && Truthy(Prop(body, "message"))
    requires !EmailRegexMatches(ToStr(Prop(body, "email")))
    ensures Feedback(body, s1) == Feedback(body, s2) == Responded(Error(400, InvalidEmail))
  {
    IsEmailIffRegex(ToStr(Prop(body, "email")));
  }

  /** A valid form is sent with the composed subject and the `category:
      feedback` tag; the reply's error decides between 500 and 200. */
  lemma ValidFormIsSent(body: Value, send: Send)
    requires !Nullish(body)
    requires Truthy(Prop(body, "name")) && Truthy(Prop(body, "email")) && Truthy(Prop(body, "message"))
    requires EmailRegexMatches(ToStr(Prop(body, "email")))
    requires SubjectLine(Prop(body, "subject"), Prop(body, "name")).Some?
    ensures var mail := Mail(From, SubjectLine(Prop(body, "subject"), Prop(body, "name")).value,
                             MailBody(Prop(body, "name"), Prop(body, "email"), Prop(body, "subject"), Prop(body, "message")),
                             map["category" := "feedback"]);
      && (send(mail).Err? ==> Feedback(body, send) == Thrown(send(mail).error))
      && (send(mail).Ok? && Truthy(send(mail).value.error) ==> Feedback(body, send) == Responded(Error(500, SendFailed)))
      && (send(mail).Ok? && !Truthy(send(mail).value.error) ==>
            Feedback(body, send) == Responded(Response(Num(200),
              Obj(map["message" := Str(Sent), "id" := Prop(send(mail).value.data, "id")]))))
  {
    IsEmailIffRegex(ToStr(Prop(body, "email")));
  }

  /** With the fields and the address valid, a subject that is neither a
      string nor nullish, such as a number, makes `subject?.trim()` throw out
      of the handler before anything is sent. */
  lemma NonStringSubjectThrows(body: Value, s1: Send, s2: Send)
    requires !Nullish(body)
    requires Truthy(Prop(body, "name")) && Truthy(Prop(body, "email")) && Truthy(Prop(body, "message"))
    requires EmailRegexMatches(ToStr(Prop(body, "email")))
    requires !Nullish(Prop(body, "subject")) && !Prop(body, "subject").Str?
    ensures Feedback(body, s1) == Feedback(body, s2) == Thrown(TypeError)
  {
    IsEmailIffRegex(ToStr(Prop(body, "email")));
  }

  /** A blank subject gets the default line but is shown as given in the
      body's subject cell, since only the line trims it. */
  lemma BlankSubjectDefaultsLine(name: Value)
    ensures SubjectLine(Str("  "), name) == Some("[" + Label + "] New feedback from " + ToStr(name))
    ensures MailBody(name, Undefined, Str("  "), Undefined).subject == "  "
    ensures MailBody(name, Undefined, Undefined, Undefined).subject == "N/A"
  {
    assert Trim("  ") == "";
  }
}
