/**
  The message-composition part of a small SMTP helper: a process-wide
  server record set by an initialisation call, an address formatter, a
  composer for the four header lines, the envelope recipient list, the
  MIME tree of the message, and the send operation that hands all of it
  to an SMTP transport. The transport itself is an oracle: whether a
  session could be created and the status code its transfer returned are
  parameters of `Send`.
 */
module Email {
  import opened Text

  datatype Option<T> = None | Some(value: T)

  /** A person: display name and mail address. */
  datatype User = User(name: string, email: string)

  /** One send request. */
  datatype SendInfo = SendInfo(
    sends: seq<User>,
    ccs: seq<User>,
    subject: string,
    body: string,
    attachments: seq<string>)

  /** The configured server: URL, account (whose address is also the login
      name) and password. */
  datatype Server = Server(url: string, user: User, passwd: string)

  /** A MIME container: its parts in order. */
  datatype Mime = Mime(parts: seq<Part>)

  /** One MIME part: its content type if one was set, its extra header
      lines, and what it holds. */
  datatype Part = Part(mimeType: Option<string>, headers: seq<string>, content: Content)

  datatype Content =
    | Data(text: string)      // in-memory data
    | FileData(path: string)  // read from a file by the transport
    | Subparts(mime: Mime)    // a nested container

  /** Everything the send operation sets on the transport session before
      the transfer is performed. */
  datatype Transfer = Transfer(
    url: string,
    username: string,
    password: string,
    mailFrom: string,
    rcpts: seq<string>,
    headers: seq<string>,
    mime: Mime)

  /** The transport's success status. */
  const CurleOk: int := 0

  const InitFailedMessage: string := "curl init failed"
  const MultipartAlternative: string := "multipart/alternative"
  const TextHtml: string := "text/html"
  const InlineDisposition: string := "Content-Disposition: inline"

  /** The two errors a send raises: the session could not be created, or
      the transfer returned a status other than success. */
  datatype SendError = InitFailed(message: string) | PerformFailed(code: int)

  datatype Outcome = Delivered | Failed(error: SendError)

  /** An address as the formatter writes it: `name <email>` with the name
      neither quoted nor escaped, or the bare `<email>`, each cut to what
      the 1024-byte buffer holds. */
  function FormatUser(u: User, withName: bool := false): (r: string)
    ensures NUL !in r
    ensures |r| <= MaxFormatted
  {
    if withName then Snprintf(CStr(u.name) + " <" + CStr(u.email) + ">")
    else Snprintf("<" + CStr(u.email) + ">")
  }

  /** The display form of every user, in order. */
  function DisplayForms(us: seq<User>): seq<string>
  {
    seq(|us|, i requires 0 <= i < |us| => FormatUser(us[i], true))
  }

  /** The bare form of every user, in order. */
  function BareForms(us: seq<User>): seq<string>
  {
    seq(|us|, i requires 0 <= i < |us| => FormatUser(us[i], false))
  }

  /** The header lines of a message: From (the configured sender's display
      form), To and Cc (display forms joined by a bare comma, the Cc line
      present even when there is nobody to copy), Subject (up to the first
      NUL); From and Subject go through the 1024-byte buffer. No line
      holds a NUL, so copying it into the header list loses nothing. */
  function HeaderLines(sender: User, info: SendInfo): (r: seq<string>)
    ensures |r| == 4
    ensures forall k :: 0 <= k < |r| ==> NUL !in r[k]
  {
    assert NUL !in "From: " && NUL !in "To: " && NUL !in "Cc: " && NUL !in "Subject: " && NUL !in ",";
    [ Snprintf("From: " + FormatUser(sender, true)),
      "To: " + Join(DisplayForms(info.sends), ","),
      "Cc: " + Join(DisplayForms(info.ccs), ","),
      Snprintf("Subject: " + CStr(info.subject)) ]
  }

  /** The envelope recipients: the bare forms of the recipients followed by
      the bare forms of the copies, each NUL-free and within the buffer. */
  function EnvelopeRecipients(info: SendInfo): (r: seq<string>)
    ensures |r| == |info.sends| + |info.ccs|
    ensures forall k :: 0 <= k < |r| ==> NUL !in r[k] && |r[k]| <= MaxFormatted
  {
    BareForms(info.sends) + BareForms(info.ccs)
  }

  /** The part that carries the text: a `multipart/alternative` part marked
      inline, holding one `text/html` part with the body. */
  function InlinePart(body: string): Part
  {
    Part(Some(MultipartAlternative), [InlineDisposition],
         Subparts(Mime([Part(Some(TextHtml), [], Data(CStr(body)))])))
  }

  /** The part for one attachment: only the file's path is given; type and
      content are left to the transport. */
  function FilePart(path: string): Part
  {
    Part(None, [], FileData(CStr(path)))
  }

  /** The message body: the inline text part, then one file part per
      attachment. */
  function MessageBody(info: SendInfo): (m: Mime)
    ensures |m.parts| == 1 + |info.attachments|
  {
    Mime([InlinePart(info.body)]
         + seq(|info.attachments|, i requires 0 <= i < |info.attachments| => FilePart(info.attachments[i])))
  }

  /** What a send does, given whether the transport could create a session
      and the status its transfer returns: the options it hands to the
      transport (none exactly when there was no session) and how it ends
      (delivered exactly when there was a session and the status is
      success). */
  function SendResult(server: Server, info: SendInfo, created: bool, code: int): (r: (Option<Transfer>, Outcome))
    ensures r.0.Some? <==> created
    ensures r.1 == Delivered <==> created && code == CurleOk
  {
    if !created then (None, Failed(InitFailed(InitFailedMessage)))
    else
      var transfer := Transfer(CStr(server.url), CStr(server.user.email), CStr(server.passwd),
                               FormatUser(server.user), EnvelopeRecipients(info),
                               HeaderLines(server.user, info), MessageBody(info));
      (Some(transfer), if code == CurleOk then Delivered else Failed(PerformFailed(code)))
  }

  /** The request the single-recipient convenience send builds. */
  function SimpleRequest(nick: string, email: string, subject: string, body: string): SendInfo
  {
    SendInfo([User(nick, email)], [], subject, body, [])
  }

  /** The envelope recipient list, built by appending to a list in two
      loops. */
  method Recipients(info: SendInfo) returns (rcpts: seq<string>)
    ensures rcpts == EnvelopeRecipients(info)
  {
    rcpts := [];
    ghost var bareSends, bareCcs := BareForms(info.sends), BareForms(info.ccs);
    var i := 0;
    while i < |info.sends|
      invariant 0 <= i <= |info.sends|
      invariant rcpts == bareSends[..i]
    {
      var addr := FormatUser(info.sends[i]);
      assert bareSends[..i + 1] == bareSends[..i] + [addr];
      rcpts := rcpts + [CStr(addr)];
      i := i + 1;
    }
    assert bareSends[..i] == bareSends;
    var j := 0;
    while j < |info.ccs|
      invariant 0 <= j <= |info.ccs|
      invariant rcpts == bareSends + bareCcs[..j]
    {
      var addr := FormatUser(info.ccs[j]);
      assert bareCcs[..j + 1] == bareCcs[..j] + [addr];
      rcpts := rcpts + [CStr(addr)];
      j := j + 1;
    }
    assert bareCcs[..j] == bareCcs;
  }

  /** The MIME tree of the body, with the attachment parts added in a
      loop. */
  method BodyMime(info: SendInfo) returns (mime: Mime)
    ensures mime == MessageBody(info)
  {
    ghost var files := MessageBody(info).parts[1..];
    var html := Part(Some(TextHtml), [], Data(CStr(info.body)));
    var alt := Mime([html]);
    var parts := [Part(Some(MultipartAlternative), [InlineDisposition], Subparts(alt))];
    var i := 0;
    while i < |info.attachments|
      invariant 0 <= i <= |info.attachments|
      invariant parts == [InlinePart(info.body)] + files[..i]
    {
      var part := Part(None, [], FileData(CStr(info.attachments[i])));
      assert files[..i + 1] == files[..i] + [part];
      parts := parts + [part];
      i := i + 1;
    }
    assert files[..i] == files;
    mime := Mime(parts);
  }

  /** A To or Cc line: the header name, then the display form of each user with
      a bare comma before every one but the first; the text is
      accumulated in a loop that reassigns the line and the separator. */
  method JoinedLine(prefix: string, users: seq<User>) returns (line: string)
    ensures line == prefix + Join(DisplayForms(users), ",")
    ensures NUL !in prefix ==> NUL !in line
  {
    ghost var forms := DisplayForms(users);
    line := prefix;
    var sep := "";
    var i := 0;
    while i < |users|
      invariant 0 <= i <= |users|
      invariant line == prefix + Join(forms[..i], ",")
      invariant sep == if i == 0 then "" else ","
    {
      var addr := FormatUser(users[i], true);
      JoinStep(prefix, forms, i, ",");
      line := line + sep + addr;
      sep := ",";
      i := i + 1;
    }
    assert forms[..i] == forms;
  }

  /** The process-wide server record and the operations that use it. */
  class Mailer {
    var server: Server

    /** Before any initialisation every field of the record is empty. */
    constructor ()
      ensures server == Server("", User("", ""), "")
    {
      server := Server("", User("", ""), "");
    }

    /** Replaces the whole record; the display name defaults to "me". */
    method Init(url: string, email: string, passwd: string, nick: string := "me")
      modifies this
      ensures server == Server(url, User(nick, email), passwd)
    {
      server := Server(url, User(nick, email), passwd);
    }

    /** The header list, built by appending one line at a time; To and Cc
        are accumulated in loops that put the separator before every
        entry but the first. */
    method HeaderList(info: SendInfo) returns (headers: seq<string>)
      ensures headers == HeaderLines(server.user, info)
    {
      headers := [];
      var buf := Snprintf("From: " + FormatUser(server.user, true));
      assert NUL !in "From: " && NUL !in "Subject: ";
      headers := headers + [CStr(buf)];

      var tos := JoinedLine("To: ", info.sends);
      headers := headers + [CStr(tos)];

      var ccs := JoinedLine("Cc: ", info.ccs);
      headers := headers + [CStr(ccs)];

      buf := Snprintf("Subject: " + CStr(info.subject));
      headers := headers + [CStr(buf)];
    }

    /** Sends one message. `created` says whether the transport could
        create a session and `code` is the status its transfer returns;
        `sent` is what was handed to the transport, if anything. */
    method Send(info: SendInfo, created: bool, code: int) returns (sent: Option<Transfer>, outcome: Outcome)
      ensures (sent, outcome) == SendResult(server, info, created, code)
    {
      if !created {
        return None, Failed(InitFailed(InitFailedMessage));
      }
      var url := CStr(server.url);
      var username := CStr(server.user.email);
      var password := CStr(server.passwd);
      var mailFrom := CStr(FormatUser(server.user));
      var rcpts := Recipients(info);
      var headers := HeaderList(info);
      var mime := BodyMime(info);
      sent := Some(Transfer(url, username, password, mailFrom, rcpts, headers, mime));
      outcome := if code == CurleOk then Delivered else Failed(PerformFailed(code));
    }

    /** The convenience send: one recipient, no copies, no attachments. */
    method SendSimple(nick: string, email: string, subject: string, body: string, created: bool, code: int)
      returns (sent: Option<Transfer>, outcome: Outcome)
      ensures (sent, outcome) == SendResult(server, SimpleRequest(nick, email, subject, body), created, code)
    {
      var info := SendInfo([User(nick, email)], [], subject, body, []);
      sent, outcome := Send(info, created, code);
    }
  }
}
