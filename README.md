# recording-bot: session orchestrator and token writer

This project models two parts of recording-bot, a chat bot that records workshop sessions.

The first part is the `?record` command handler of the chat controller (`ts/discord-controller/main.ts`). It has three pieces:

- **One session slot.** The slot moves ready → starting → recording → saving → ready.
- **Five state-checked subcommands.** `screen`/`url`, `start`, `stop`, `take` and `debug` are checked against the slot. A refused subcommand raises a `CommandError`, and the handler turns that error into the reply.
- **The stop-time save.** It asks for an upload and falls back to a local `.webm` file when the upload does not succeed.

Beside the handler sit its pure helpers:

- the zero padding and the two timestamp layouts;
- the hexadecimal-to-`a..p` alphabet map;
- the 32-letter extension identifier.

The second part is the markdown token writer (`ts/markdown/writer/Writer.ts`). It is a string buffer with a table of custom writers. Each token gets its custom writer's text or its `<tag>`/`</tag>` text.

Modules:

- `Wrappers` holds `Option` and `Result`.
- `DateFormat` holds `pad`, the two date formatters, and a stamp reader that proves them invertible.
- `ExtensionId` holds the alphabet map and `generateExtensionIdByPath`, which takes the SHA-256 hex digest as a function parameter.
- `CommandLine` holds `split(/\s+/, 3)`, the subcommand classification, and a canonical rendering of each command.
- `Orchestrator` holds the slot as class `Session`, one method per subcommand, the save protocol and the message handler.
- `MarkdownWriter` holds class `Writer` and the function `Render`, which specifies `writeAll`.

What the collaborators answer during a command is passed in as a `Collaborators` record:

- whether the sender is in a voice channel;
- whether the browser page and the voice connection were acquired;
- what the recorder's start, stop, screenshot and debug toggle return;
- the upload outcome;
- the clock;
- whether the file write succeeds.

What the handler sends or writes is returned as a list of `Effect`s.

The model follows the code as written:

- A failure while acquiring the recorder leaves the slot `starting`, with no rollback to ready. A failure of the recorder's stop or of the file write leaves it `saving`.
- `?record ` with a trailing space has an empty second field, so it gets "invalid command" and not help.
- `stop` replies more than once: "stopped", then the upload result or the fallback messages.

## Model

| member | source | states |
|---|---|---|
| DateFormat.PadKeepsValue | ts/discord-controller/main.ts:29-34 | The padded text of every n ≥ 0 is all digits and reads back as n. It has exactly two characters precisely when n ≤ 99. |
| DateFormat.IntRoundTrip | ts/discord-controller/main.ts:37 | The year's number-to-text conversion reads back as the same integer, negative years included. |
| DateFormat.StampRoundTrip | ts/discord-controller/main.ts:36-52 | Both layouts are year, month0+1, day, hours, minutes and seconds, with the last five padded. Every well-formed date is recovered from its stamp with either set of separators. The stamp has the year's length plus 15 characters. |
| DateFormat.TailFields | ts/discord-controller/main.ts:37-42 | After the year, the separators sit at fixed offsets 0, 3, 6, 9 and 12. Each two-digit field reads back as month0+1, day, hours, minutes or seconds. |
| DateFormat.FallbackFileNameRoundTrip | ts/discord-controller/main.ts:270 | The fallback file name ends in `.webm` and has at least 21 characters. The part before `.webm` reads back as the date it was made from. |
| ExtensionId.HexValue | ts/discord-controller/main.ts:57-58 | `parseInt(c, 16)` of a hex digit in either case is below 16. |
| ExtensionId.IdLetter | ts/discord-controller/main.ts:57 | The n-th letter of the alphabet is in `a..p` and lies n places after `a`. |
| ExtensionId.LookUp | ts/discord-controller/main.ts:54-59 | The table yields a single letter exactly for `0-9a-fA-F`. Any other character yields nothing, because `undefined` joins as empty. |
| ExtensionId.CaseDoesNotMatter | ts/discord-controller/main.ts:56-59 | The lower- and upper-case forms of a digit map to the same letter. |
| ExtensionId.ConvertHexadecimalToIdAlphabet | ts/discord-controller/main.ts:61-63 | The output is never longer than the input and holds only `a..p`. On hex input it has the input's length, and letter i is the letter of digit i's value. |
| ExtensionId.LookUpTable | ts/discord-controller/main.ts:55-59 | The table as the start-up loop fills it: the i-th character of `0123456789abcdef`, and its upper-case form, both map to the i-th letter of `abcdefghijklmnop`. |
| ExtensionId.IdToHexInverts | ts/discord-controller/main.ts:55-63 | On hex input the conversion loses only the case: mapping each letter back to its digit (an independent table) gives the input lowered by character arithmetic, so the digit with value n becomes the n-th letter. |
| ExtensionId.ExtensionIdOfDigest | ts/discord-controller/main.ts:65-67 | For a 64-digit SHA-256 hex digest, the identifier has exactly 32 letters of `a..p`. It is the conversion of the digest's first 32 digits and gives those digits back. |
| CommandLine.SplitOnWhitespace | ts/discord-controller/main.ts:156 | Splitting on whitespace runs yields at least one piece. |
| CommandLine.PiecesHaveNoWhitespace | ts/discord-controller/main.ts:156 | No piece of the split contains whitespace. |
| CommandLine.SplitKeepsVisible | ts/discord-controller/main.ts:156 | Splitting loses only whitespace: the pieces put back together are the line's non-whitespace characters, in order. |
| CommandLine.SplitWord | ts/discord-controller/main.ts:156 | A word, one whitespace run and a rest that does not start with whitespace split into the word followed by the pieces of the rest. |
| CommandLine.Fields | ts/discord-controller/main.ts:156 | The split limit of 3 keeps between one and three fields. |
| CommandLine.ParsedLineStartsWithPrefix | ts/discord-controller/main.ts:146-157 | Any line whose first field is `?record` also passes the `startsWith` guard, so that guard never hides a command. |
| CommandLine.ParseRender | ts/discord-controller/main.ts:156-161 | Every subcommand, including help with no second field and `screen` with or without a one-word URL, is recognised from its canonical line. |
| CommandLine.ScreenUrlIsOneWord | ts/discord-controller/main.ts:156 | `?record url <u> <anything>` sets the URL to `<u>` alone, because the split limit drops the rest of the line. |
| CommandLine.PrefixEdgeCases | ts/discord-controller/main.ts:146-157 | `?record` alone is help. `?record ` with a trailing space is invalid, because of the empty second field. `?recording` passes the `startsWith` guard but is ignored. |
| Orchestrator.TransientStatesRefuseAll | ts/discord-controller/main.ts:159-310 | In `saving` and `starting`, every state-checked subcommand is refused with "saving record now" or "starting recorder now". |
| Orchestrator.LegalityMatrix | ts/discord-controller/main.ts:159-313 | `screen`/`url` goes ahead exactly in ready and recording, `start` exactly in ready, and `stop`, `take` and `debug` exactly in recording. |
| Orchestrator.Deliver | ts/discord-controller/main.ts:350-353 | A `CommandError` becomes a reply with its message. Any other error is rethrown after the effects that preceded it. |
| Orchestrator.UploadSuccessWritesNothing | ts/discord-controller/main.ts:256-263 | After a successful upload the save finishes, writes no file and replies with the `https://youtu.be/` address of the video. |
| Orchestrator.FallbackSavesCapturedBytes | ts/discord-controller/main.ts:264-279 | When upload is disabled or fails, the save finishes exactly when the file write succeeds. On success it writes one file: the recorder's bytes, unchanged, under the fallback name. A failed write writes nothing. |
| Orchestrator.UploadRequestCarriesStartTime | ts/discord-controller/main.ts:232-251 | With a video host configured, the first effect is the upload request. It is unlisted, carries the recorder's bytes, and its title stamp reads back as the recording's start time. |
| Orchestrator.DebugReplyIgnoresFlag | ts/discord-controller/main.ts:318 | The reply as written is "enabled" whether debug was turned on or off. |
| Orchestrator.DebugReplyReportsFlag | ts/discord-controller/main.ts:318 | The intended reply tells the two flag values apart. |
| Orchestrator.Recorder.constructor | ts/discord-controller/main.ts:199-204 | A new recorder holds the screen URL it is given. |
| Orchestrator.Recorder.SetScreenUrl | ts/discord-controller/main.ts:168 | Forwarding a URL replaces the recorder's URL. |
| Orchestrator.Session.constructor | ts/discord-controller/main.ts:89 | The slot starts ready with no screen URL. Its history is the single state ready. |
| Orchestrator.Session.HandleScreen | ts/discord-controller/main.ts:160-176 | Refused in saving and starting with the slot unchanged. In ready, the slot becomes ready with the argument as URL, absent when there is no third field. In recording, the slot is unchanged and the recorder gets the URL. |
| Orchestrator.Session.HandleStart | ts/discord-controller/main.ts:179-212 | Refused in saving, recording and starting, and refused without a voice channel, each time with the slot unchanged. Otherwise the slot becomes starting, and stays there if acquisition fails. It then becomes recording with a fresh recorder holding the old URL, and stays there if the recorder fails to start. |
| Orchestrator.Session.HandleStop | ts/discord-controller/main.ts:214-284 | Refused outside recording, with "not recording. please start." in ready. Otherwise the slot becomes saving before the recorder is stopped. The effects are those of the save protocol. The slot becomes ready with no URL only when the save finishes, and stays saving on a recorder or file-system failure. Every step keeps the history on the cycle. |
| Orchestrator.Session.HandleTake | ts/discord-controller/main.ts:286-303 | Refused outside recording. In recording it sends the screenshot's bytes to the channel. |
| Orchestrator.Session.HandleDebug | ts/discord-controller/main.ts:305-321 | Refused outside recording. In recording it replies with the text line 318 computes, which is "enabled" whatever the toggle returns (see the finding below). |
| Orchestrator.Session.OnMessage | ts/discord-controller/main.ts:145-355 | A line without the prefix is ignored. A direct message is answered "you must not send from DM!". A line whose first field is not exactly `?record` is ignored. A state refusal's message becomes the reply, with the slot unchanged. Help sends the card, and an unknown subcommand gets "invalid command". Screen sets the slot's URL in ready and the recorder's URL in recording. Start without a voice channel is answered "please connect to voice channel" with the slot unchanged. A failed acquisition leaves the slot starting, and a recorder that fails to start leaves it recording; both errors escape. Otherwise start launches a fresh recorder holding the old URL. Stop leaves the slot saving when the recorder's stop fails; otherwise it gives the save protocol's effects and returns to ready exactly when the save finishes. Take sends the screenshot and debug replies the line-318 text, with the slot unchanged. An error escapes only when a collaborator failed. No message moves the slot out of starting or saving. Only a screen command changes a running recorder; every other line leaves it as it was. |
| Orchestrator.StopWhileReady | ts/discord-controller/main.ts:214-221 | A `stop` sent to a fresh session is answered "not recording. please start." and the slot stays ready. |
| Orchestrator.RecordAndSaveLocally | ts/discord-controller/main.ts:159-284 | screen, start and stop with no video host are answered in order: URL set, recorder launched, then the save effects. The recorder is launched holding the URL. The save writes the recorder's bytes once under the fallback name, and the slot is ready again without a URL. |
| MarkdownWriter.TagTextRoundTrip | ts/markdown/writer/Writer.ts:48-53 | The text written for a tagged token whose tag does not begin with `/` reads back as its tag. It is a closing tag exactly when the indent is negative. |
| MarkdownWriter.RenderAppend | ts/markdown/writer/Writer.ts:31-36 | Writing two runs of tokens one after the other equals writing their concatenation, unless the first run threw. |
| MarkdownWriter.RenderWithoutWriters | ts/markdown/writer/Writer.ts:31-46 | With no custom writers, writing fails exactly when some token has no tag. Otherwise the output is the tag texts in order. |
| MarkdownWriter.CustomWriterFirst | ts/markdown/writer/Writer.ts:38-46 | A registered custom writer is used even for a tagged token. A token fails exactly when it has neither a custom writer nor a tag. |
| MarkdownWriter.LastRegistrationWins | ts/markdown/writer/Writer.ts:13-17 | After a series of registrations, a name maps to the writer of its last registration. |
| MarkdownWriter.UnregisteredKeepsWriter | ts/markdown/writer/Writer.ts:13-17 | A name no registration uses keeps what it had, including being absent. |
| MarkdownWriter.Writer.constructor | ts/markdown/writer/Writer.ts:9-25 | A new writer holds the tokens, an empty buffer and no custom writers. |
| MarkdownWriter.Writer.Append | ts/markdown/writer/Writer.ts:21-23 | The buffer becomes the old buffer followed by the text. Nothing else changes. |
| MarkdownWriter.Writer.AddWriter | ts/markdown/writer/Writer.ts:27-29 | The writer is registered under the name and replaces any earlier one. Nothing else changes. |
| MarkdownWriter.Writer.AddDefaultWriters | ts/markdown/writer/Writer.ts:13-17 | The default pairs are registered in order. |
| MarkdownWriter.Writer.WriteTagToken | ts/markdown/writer/Writer.ts:48-53 | Appends `</tag>` for a negative indent and `<tag>` otherwise. |
| MarkdownWriter.Writer.WriteToken | ts/markdown/writer/Writer.ts:38-46 | Appends the custom writer's text if one is registered, else the tag text. A token with neither throws "Token without tag must have CustomWriter" and appends nothing. |
| MarkdownWriter.Writer.WriteAll | ts/markdown/writer/Writer.ts:31-36 | The buffer grows by the tokens' texts in order and is never cleared. The result is the whole buffer, or the no-tag error once a token throws, with the earlier tokens' text still appended. |
| MarkdownWriter.WriteAllTwice | ts/markdown/writer/Writer.ts:19-35 | A second `writeAll` on the same tagged tokens returns the first result followed by the same text again. It differs from the first result whenever there are tokens. |

## Left out

- Chat I/O is not modelled: the chat client, sending replies, files and the help card, and its text. A reply is an `Effect` value. A reply that fails to send is not modelled. In `stop`, such a failure after a successful upload would also run the fallback save.
- The browser, the recorder's and chat controller's internals, and the voice connection are not modelled. Acquisition, recorder start and recorder stop are boolean or optional inputs. The recorder handle keeps only its screen URL.
- Orchestrator.Session.HandleTake: the screenshot call is treated as never failing.
- Orchestrator.Session.HandleDebug: the debug toggle is treated as never failing, and the debug setting itself is not modelled; only the value the toggle returns is an input.
- The video host and its authentication are not modelled. The upload outcome (disabled, uploaded with an id, failed) is an input. The upload request's description, MIME type and field list are not modelled.
- File-system calls are not modelled. The directory creation and file write are one success flag, and the path join under the video directory is left out. The effect records only the file name.
- SHA-256 is a function parameter.
- Dates are records of the local-time fields. Time zones and the clock are inputs.
- Console logging (`console.log`, `console.error`) is not modelled. No reply or state depends on it.
- Concurrent messages are not modelled. Commands are handled one at a time, each to completion.
- Custom writers: a custom writer is a pure function from token to the text it appends. Custom writers that call back into the writer, that read the environment argument or that throw are not modelled. The environment argument of `writeAll` and `writeToken` is left out.
- MarkdownWriter.Writer.AddDefaultWriters: the default writer table is not part of this model, so it is a parameter.
- The process set-up around the handler is not modelled: login, browser launch, extension path and `Gulpfile.js`.

## Findings

| source | as written | input that shows it | evidently intended | confidence | as-written member | corrected member |
|---|---|---|---|---|---|---|
| ts/discord-controller/main.ts:318 | `+` binds tighter than `?:`, so the concatenated text is the condition. It is never empty, so the reply is always the bare word "enabled". | `?record debug` while recording, with the toggle returning false: the reply is "enabled". | The reply "toggled. debug: disabled". | not executed; follows from operator precedence | Orchestrator.DebugReplyAsWritten (lemma Orchestrator.DebugReplyIgnoresFlag) | Orchestrator.DebugReply (lemma Orchestrator.DebugReplyReportsFlag) |
