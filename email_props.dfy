/**
  What the composed message means: the two address forms and how they
  relate, the four header lines and what a mail client reading them
  recovers, the envelope and how it relates to the header lines, the
  shape of the MIME body, and what a send hands to the transport and how
  it ends.
 */
module EmailProperties {
  import opened Text
  import opened Email

  /** Each address form is the prefix of the untruncated text that the
      buffer can hold; the name is written as it is, neither quoted nor
      escaped. */
  lemma FormatUserForms(u: User)
    ensures var full := CStr(u.name) + " <" + CStr(u.email) + ">";
            FormatUser(u, true) <= full
            && |FormatUser(u, true)| == if |full| <= MaxFormatted then |full| else MaxFormatted
    ensures var full := "<" + CStr(u.email) + ">";
            FormatUser(u, false) <= full
            && |FormatUser(u, false)| == if |full| <= MaxFormatted then |full| else MaxFormatted
  {
  }

  /** For a user whose name and address hold no NUL and fit the buffer,
      both forms are exactly `name <email>` and `<email>`. */
  lemma VerbatimForms(u: User)
    requires NUL !in u.name && NUL !in u.email && |u.name| + |u.email| + 3 <= MaxFormatted
    ensures FormatUser(u, true) == u.name + " <" + u.email + ">"
    ensures FormatUser(u, false) == "<" + u.email + ">"
  {
  }

  /** When nothing is cut, the display form is the name, a space, and the
      bare form. */
  lemma DisplayFormExtendsBareForm(u: User)
    requires |CStr(u.name)| + |CStr(u.email)| + 3 <= MaxFormatted
    ensures FormatUser(u, true) == CStr(u.name) + " " + FormatUser(u, false)
  {
    var name, email := CStr(u.name), CStr(u.email);
    assert FormatUser(u, false) == "<" + email + ">";
    assert FormatUser(u, true) == name + " <" + email + ">";
    assert name + " <" + email + ">" == name + " " + ("<" + email + ">");
  }

  /** Whatever the request, there are exactly four header lines, From, To,
      Cc and Subject, in that order. */
  lemma HeaderLinesOrder(sender: User, info: SendInfo)
    ensures var h := HeaderLines(sender, info);
            |h| == 4 && h[0][..6] == "From: " && h[1][..4] == "To: "
            && h[2][..4] == "Cc: " && h[3][..9] == "Subject: "
  {
    PrefixSurvivesSnprintf("From: ", FormatUser(sender, true));
    PrefixSurvivesSnprintf("Subject: ", CStr(info.subject));
  }

  /** A short prefix survives formatting into the buffer. */
  lemma PrefixSurvivesSnprintf(prefix: string, text: string)
    requires |prefix| <= MaxFormatted
    ensures |Snprintf(prefix + text)| >= |prefix|
    ensures Snprintf(prefix + text)[..|prefix|] == prefix
  {
    var r := Snprintf(prefix + text);
    assert r[..|prefix|] == (prefix + text)[..|prefix|];
  }

  /** The From line is formatted through the buffer twice, once by the
      address formatter and once more with the "From: " prefix; the result
      is the line a single formatting of `From: name <email>` gives. */
  lemma FromLineFormattedOnce(sender: User, info: SendInfo)
    ensures HeaderLines(sender, info)[0]
         == Snprintf("From: " + CStr(sender.name) + " <" + CStr(sender.email) + ">")
  {
    var full := CStr(sender.name) + " <" + CStr(sender.email) + ">";
    SnprintfAbsorbs("From: ", full);
    assert "From: " + full == "From: " + CStr(sender.name) + " <" + CStr(sender.email) + ">";
  }

  /** The Subject line is the subject as given, when it holds no NUL and
      fits the buffer. */
  lemma SubjectLineVerbatim(sender: User, info: SendInfo)
    requires NUL !in info.subject && |info.subject| + 9 <= MaxFormatted
    ensures HeaderLines(sender, info)[3] == "Subject: " + info.subject
  {
  }

  /** With nobody to copy, the Cc line is still there, with an empty
      value. */
  lemma EmptyCcLine(sender: User, info: SendInfo)
    requires info.ccs == []
    ensures HeaderLines(sender, info)[2] == "Cc: "
  {
    assert DisplayForms(info.ccs) == [];
  }

  /** A reader that splits the To value at commas gets back the display
      forms of the recipients, in order, provided no display form itself
      contains a comma. */
  lemma ToLineListsRecipients(sender: User, info: SendInfo)
    requires |info.sends| >= 1
    requires forall i :: 0 <= i < |info.sends| ==> ',' !in FormatUser(info.sends[i], true)
    ensures Split(HeaderLines(sender, info)[1][4..], ',') == DisplayForms(info.sends)
  {
    var forms := DisplayForms(info.sends);
    assert HeaderLines(sender, info)[1][4..] == Join(forms, [',']);
    SplitJoin(forms, ',');
  }

  /** Because names are neither quoted nor escaped, a recipient whose name
      is `A <a>,B` gives the same To line as the two recipients A and B:
      mail clients see two addressees where the request had one. */
  lemma DisplayNameNotEscaped(sender: User, a: User, b: User, subject: string, body: string)
    requires NUL !in a.name && NUL !in a.email && NUL !in b.name && NUL !in b.email
    requires |a.name| + |a.email| + |b.name| + |b.email| + 7 <= MaxFormatted
    ensures var merged := User(a.name + " <" + a.email + ">," + b.name, b.email);
            (HeaderLines(sender, SendInfo([merged], [], subject, body, []))[1]
             == HeaderLines(sender, SendInfo([a, b], [], subject, body, []))[1])
  {
    var merged := User(a.name + " <" + a.email + ">," + b.name, b.email);
    assert NUL !in " <" && NUL !in ">,";
    VerbatimForms(merged);
    VerbatimForms(a);
    VerbatimForms(b);
    var one, pa, pb := FormatUser(merged, true), FormatUser(a, true), FormatUser(b, true);
    assert one == pa + "," + pb by {
      assert merged.name + " <" + merged.email + ">"
          == (a.name + " <" + a.email + ">") + "," + (b.name + " <" + b.email + ">");
    }
    assert DisplayForms([merged]) == [one];
    var forms := DisplayForms([a, b]);
    assert forms == [pa, pb];
    assert forms[..1] == [pa];
    assert Join(forms, ",") == pa + "," + pb;
  }

  /** The envelope lists the bare form of every recipient, then of every
      copy, each exactly once and in order. */
  lemma EnvelopeOrder(info: SendInfo)
    ensures var rcpts := EnvelopeRecipients(info);
            && |rcpts| == |info.sends| + |info.ccs|
            && (forall i :: 0 <= i < |info.sends| ==> rcpts[i] == FormatUser(info.sends[i], false))
            && (forall j :: 0 <= j < |info.ccs| ==> rcpts[|info.sends| + j] == FormatUser(info.ccs[j], false))
  {
  }

  /** Each entry of the To line is the recipient's display name followed by
      the address the envelope delivers to. */
  lemma ToEntryExtendsEnvelopeAddress(info: SendInfo, i: nat)
    requires i < |info.sends|
    requires |CStr(info.sends[i].name)| + |CStr(info.sends[i].email)| + 3 <= MaxFormatted
    ensures DisplayForms(info.sends)[i] == CStr(info.sends[i].name) + " " + EnvelopeRecipients(info)[i]
  {
    DisplayFormExtendsBareForm(info.sends[i]);
  }

  /** The body has one part more than there are attachments: first the
      inline `multipart/alternative` part holding exactly one `text/html`
      part with the body, then one file part per attachment, in order. */
  lemma MessageBodyShape(info: SendInfo)
    ensures var parts := MessageBody(info).parts;
            && |parts| == 1 + |info.attachments|
            && parts[0].mimeType == Some(MultipartAlternative)
            && parts[0].headers == [InlineDisposition]
            && parts[0].content.Subparts?
            && |parts[0].content.mime.parts| == 1
            && parts[0].content.mime.parts[0].mimeType == Some(TextHtml)
            && parts[0].content.mime.parts[0].content == Data(CStr(info.body))
            && forall i :: 0 <= i < |info.attachments| ==>
                 parts[i + 1].content == FileData(CStr(info.attachments[i])) && parts[i + 1].mimeType == None
  {
  }

  /** A send that gets no session fails with the initialisation error and
      sets nothing; otherwise it logs in with the account address, uses
      its bare form as envelope sender, and fails exactly when the
      transfer's status is not success, carrying that status. */
  lemma SendOutcome(server: Server, info: SendInfo, created: bool, code: int)
    ensures var (sent, outcome) := SendResult(server, info, created, code);
            && (!created ==> sent == None && outcome == Failed(InitFailed(InitFailedMessage)))
            && (created ==> sent.Some?
                            && sent.value.username == CStr(server.user.email)
                            && sent.value.mailFrom == FormatUser(server.user, false)
                            && sent.value.rcpts == EnvelopeRecipients(info)
                            && sent.value.headers == HeaderLines(server.user, info)
                            && sent.value.mime == MessageBody(info)
                            && (outcome == Delivered <==> code == CurleOk)
                            && (code != CurleOk ==> outcome == Failed(PerformFailed(code))))
  {
  }

  /** The convenience send delivers to the one address given, writes an
      empty Cc line and sends a body with no attachment part. */
  lemma SimpleSendShape(server: Server, nick: string, email: string, subject: string, body: string, code: int)
    ensures var (sent, _) := SendResult(server, SimpleRequest(nick, email, subject, body), true, code);
            && sent.Some?
            && sent.value.rcpts == [FormatUser(User(nick, email), false)]
            && sent.value.headers[2] == "Cc: "
            && sent.value.mime.parts == [InlinePart(body)]
  {
    var info := SimpleRequest(nick, email, subject, body);
    assert BareForms(info.sends) == [FormatUser(User(nick, email), false)];
    assert BareForms(info.ccs) == [];
    assert DisplayForms(info.ccs) == [];
  }
}
