# SMTP mail helper: message composition

This project models how a small SMTP helper built on libcurl composes a
message and what it hands to the transport. The helper keeps one
process-wide server record (URL, account, password). `email_smtp_init`
sets that record. `email_smtp_send` builds four things from the record and
a send request:
- the envelope sender and the envelope recipients;
- four header lines (From, To, Cc, Subject);
- a MIME body: an inline `multipart/alternative` part holding the HTML
  text, followed by one file part per attachment.

It then performs the transfer and raises an error when libcurl reports a
failure.

Files:

- `text.dfy` (module `Text`): what C does to the strings involved.
  - `CStr`: `c_str()` passed through `%s`, copied by `curl_slist_append`
    or given with `CURL_ZERO_TERMINATED` is cut at its first NUL.
  - `Snprintf`: the 1024-byte `snprintf` buffer keeps at most 1023
    characters.
  - `Join` and `Split`: joining a list with a separator, and the split
    that undoes it.
- `email.dfy` (module `Email`): the records of `email.h`, the address
  formatter `FormatUser`, and the specification functions `HeaderLines`,
  `EnvelopeRecipients`, `MessageBody` and `SendResult`. The class
  `Mailer` holds the server record in its field `server`. Its methods
  build the header list, the recipient list and the MIME tree with the
  same loops as the source, and each is proved equal to its
  specification function.
- `email_props.dfy` (module `EmailProperties`): lemmas about what those
  functions mean.

Strings are `seq<char>`, and one `char` stands for one byte of a
`std::string`, which is what `snprintf` counts. A NUL inside a string is
modelled, not excluded:
every place where the source hands a `std::string` to C goes through
`CStr`.

The transport is an oracle. `Send` takes two parameters:
- `created`: whether `curl_easy_init` returned a session;
- `code`: the status that `curl_easy_perform` returned.

`Send` returns what it set on the session (nothing if there was no
session) and an `Outcome`. A thrown `std::runtime_error` becomes
`Failed(...)`.

Display names are written bare (`Me <me@x.com>`), not quoted
(`"Me" <me@x.com>`), and are not escaped. `DisplayNameNotEscaped` shows one
consequence.

## Model

| member | source | states |
|---|---|---|
| `Text.CStr` | src/email.cpp:24-26 | A C routine handed `s.c_str()` sees a prefix of `s` that holds no NUL and stops exactly at the first NUL, or is all of `s` when `s` has none. |
| `Text.Snprintf` | src/email.cpp:22-27 | `snprintf(buf, 1024, ...)` leaves a prefix of the formatted text: all of it when it has at most 1023 characters, otherwise exactly 1023. A NUL-free text stays NUL-free. |
| `Text.SnprintfAbsorbs` | src/email.cpp:38 | Formatting a prefix followed by text that already went through the buffer gives the same result as formatting the prefix and the whole text once. |
| `Text.Join` | src/email.cpp:44-47 | Joining NUL-free items with a NUL-free separator gives a NUL-free line, so copying it as a C string loses nothing. |
| `Text.JoinStep` | src/email.cpp:44-47 | Appending one item to a line holding the join of the earlier items adds the separator first, except before the first item. |
| `Text.SplitJoin` | src/email.cpp:42-57 | Splitting the joined text at the separator character gives back the items when none of them contains that character. |
| `Email.FormatUser` | src/email.cpp:20-29 | Both address forms are NUL-free and at most 1023 characters long. |
| `Email.HeaderLines` | src/email.cpp:31-64 | Defines the header list: From (the sender's display form after the buffer), To and Cc (display forms joined by a bare comma, Cc present even when empty), Subject (after the buffer). There are exactly four lines and none holds a NUL, so copying them into the `curl_slist` loses nothing. |
| `Email.EnvelopeRecipients` | src/email.cpp:113-121 | Defines the envelope list: the bare forms of the recipients, then of the copies. It has \|sends\| + \|ccs\| entries, each NUL-free and at most 1023 characters long. |
| `Email.MessageBody` | src/email.cpp:66-92 | Defines the MIME body: the inline `multipart/alternative` part holding the `text/html` body, then one file part per attachment, so 1 + \|attachments\| parts. |
| `Email.SendResult` | src/email.cpp:100-145 | Defines a send: what is set on the session and how it ends. Options are set exactly when a session was created, and the send is delivered exactly when a session was created and the status is `CURLE_OK`. |
| `Email.JoinedLine` | src/email.cpp:41-57 | The loop that builds the To or Cc line gives the header name followed by the users' display forms, joined by a bare comma in input order. |
| `Email.Recipients` | src/email.cpp:113-121 | The two appending loops produce exactly the envelope list: the bare forms of the recipients, then those of the copies. |
| `Email.BodyMime` | src/email.cpp:66-92 | The MIME tree built part by part is the inline text part followed by one file part per attachment. |
| `Email.Mailer.constructor` | src/email.cpp:12-18 | Before any initialisation the server record has empty URL, name, address and password. |
| `Email.Mailer.Init` | src/email.cpp:94-98 | Initialisation replaces the whole record with `{url, {nick, email}, passwd}`. Nothing of an earlier record survives, so after two calls only the second call's values remain. The name defaults to "me" (src/email.h:22-24). |
| `Email.Mailer.HeaderList` | src/email.cpp:31-64 | The header list appended line by line is the From, To, Cc and Subject lines of `HeaderLines`. |
| `Email.Mailer.Send` | src/email.cpp:100-145 | A send gives exactly `SendResult`. Without a session it fails with "curl init failed" before setting anything. Otherwise it sets URL, login name, password, envelope sender, recipients, headers and body, and fails exactly when the transfer status is not `CURLE_OK`. |
| `Email.Mailer.SendSimple` | src/email.cpp:147-152 | The convenience send's result is the structured send's result for `{[{nick, email}], [], subject, body, []}`. |
| `EmailProperties.FormatUserForms` | src/email.cpp:23-27 | The display form is the prefix of `name <email>` and the bare form the prefix of `<email>`, of length min(full length, 1023). The name is not quoted or escaped. |
| `EmailProperties.VerbatimForms` | src/email.cpp:23-27 | For a NUL-free user that fits the buffer, the forms are exactly `name <email>` and `<email>`. |
| `EmailProperties.DisplayFormExtendsBareForm` | src/email.cpp:23-27 | When nothing is cut, the display form is the name, a space, and the bare form. |
| `EmailProperties.HeaderLinesOrder` | src/email.cpp:37-61 | For every request there are exactly four header lines, starting "From: ", "To: ", "Cc: " and "Subject: " in that order. |
| `EmailProperties.PrefixSurvivesSnprintf` | src/email.cpp:38 | A prefix of at most 1023 characters survives the 1024-byte buffer intact. |
| `EmailProperties.FromLineFormattedOnce` | src/email.cpp:38 | The From line equals one formatting of `From: name <email>` into the buffer, although it goes through the buffer twice. |
| `EmailProperties.SubjectLineVerbatim` | src/email.cpp:60 | A NUL-free subject that fits the buffer appears verbatim after "Subject: ". |
| `EmailProperties.EmptyCcLine` | src/email.cpp:50-57 | With no copies, the Cc line is still present and is exactly "Cc: ". |
| `EmailProperties.ToLineListsRecipients` | src/email.cpp:42-48 | Splitting the To value at commas gives back the recipients' display forms in order, when no display form contains a comma. |
| `EmailProperties.DisplayNameNotEscaped` | src/email.cpp:24 | A single recipient named `A <a>,B` with address `b` gives the same To line as the two recipients A and B, because names are not escaped. |
| `EmailProperties.EnvelopeOrder` | src/email.cpp:113-121 | The envelope has \|sends\| + \|ccs\| entries: the bare form of the i-th recipient at i, and the bare form of the j-th copy at \|sends\| + j. |
| `EmailProperties.ToEntryExtendsEnvelopeAddress` | src/email.cpp:45 | Each To entry is the recipient's name, a space, and the envelope address of that recipient (when nothing is cut). |
| `EmailProperties.MessageBodyShape` | src/email.cpp:66-92 | The body has 1 + \|attachments\| parts. Part 0 is `multipart/alternative` with header `Content-Disposition: inline` and exactly one `text/html` subpart holding the body. Part i+1 is an untyped file part for the i-th attachment. |
| `EmailProperties.SendOutcome` | src/email.cpp:102-144 | Without a session: no options and the init error. With one: the login name is the account address, the envelope sender is its bare form, the message parts are the composed ones, and the send succeeds exactly when the status is `CURLE_OK` (otherwise the error carries the status). |
| `EmailProperties.SimpleSendShape` | src/email.cpp:147-152 | The convenience send delivers to the single given address, writes an empty Cc line, and sends only the inline text part. |

## Left out

- The libcurl transport is not modelled: the SMTP dialogue, TLS, authentication and the blocking `curl_easy_perform`. Whether a session is created and the transfer's status are parameters of `Send`.
- Email.Mailer.Send: the failure carries libcurl's status code instead of the text of `curl_easy_strerror`, which is foreign code.
- Failures of `curl_easy_setopt`, `curl_slist_append` and `curl_mime_*` (allocation failures) are not modelled. The source ignores their results.
- Attachments are modelled by their path only. Reading the file, inferring its content type and deriving its file name are done by `curl_mime_filedata`, which is foreign code.
- The root container's `multipart/mixed` type is chosen by libcurl when the body is posted and is not modelled.
- Freeing the lists, the MIME tree and the session (src/email.cpp:137-140) is not modelled. The comment at src/email.cpp:90 asks whether `slist` and `alt` need freeing: libcurl owns both (src/email.cpp:79 and 82) and frees them with the MIME tree (src/email.cpp:140). Dafny values have no lifetime.
- The static buffer of the formatter is shared between calls. Every caller copies it at once, so no output depends on the sharing, and the model returns fresh values.
- Text.Snprintf: text is counted in `char`s, each standing for one byte. Multi-byte UTF-8 text, which the source cuts at 1023 bytes (possibly inside a character), is not modelled as such.
- No thread safety of the global record or of the static buffer. The model is sequential.
- In the source, a MIME part is added empty and then filled in. The model builds each part whole and then appends it; nothing can observe the difference.
- The two To/Cc loops of `__email_header_slist` are one method (`JoinedLine`) called twice. The two recipient loops of `email_smtp_send` form the method `Recipients`. Each does what the inline loops do.
