# Confluence outbound normalizer and example-fixture names

This project models two pieces of a webhook relay that turns vendor webhooks
into canonical chat messages:

- **The Confluence outbound normalizer.** It takes one decoded Confluence
  webhook record and produces a canonical chat message. The message has an
  activity line ("Alice created page"), an optional icon URL and one
  attachment. The attachment holds an optional "Page" link field followed by
  an optional "Space" field. The event is classified from the dates in the
  record. It is a comment event when the comment's modification date is
  positive; otherwise it is a page event. It counts as created when that
  record's modification date is positive and exactly equal to its creation
  date; otherwise it counts as updated. After decoding, a comment event's page
  is replaced by the comment's parent page.
- **The example-fixture file names.** A table maps each handler key to an
  optional file extension and its example event slugs. `BuildFilename` names
  the fixture `event-example_<slug>.<ext>`. The extension is the handler's own
  when it is listed and non-empty, and `json` otherwise.

Files:

- `wrappers.dfy` (`Wrappers`): `Option`.
- `commonchat.dfy` (`CommonChat`): the canonical `Message`, `Attachment` and
  `Field`, with the two append operations the normalizer uses.
- `confluence.dfy` (`Confluence`): the page, comment and message records; the
  predicates `IsComment`, `IsCreated` and `IsUpdated`; the after-decode rewrite
  `FromDecoded`; and `Normalize`.
- `example_events.dfy` (`ExampleEvents`): `DefaultExtension`, `ExampleSource`,
  `ExampleData` with `Extension` and `BuildFilename`, and the embedded table
  `Embedded`.

`Normalize` is a method and keeps the shape of the Go code. It starts from the
empty message and sets the icon and then the activity line. It appends the
fields one by one to a local attachment and appends that attachment to the
message. Its contract ties the result to specification functions. The
activity line is `Actor(src) + Phrase(Classify(src))`. The fields are
`ExpectedFields(src.page)`. Here `src` is the record after the rewrite. The
lemmas state the properties of those functions. The four activity lines are
unambiguous: `EventOfActivity` reads the event kind back from any of them.
Fields are present exactly when their source values are. "Page" comes before
"Space". The Space value is always the page's space key, even though the code
reads it from `Comment.Parent` for comment events. The fixture name is
inverted by `SlugOf`, and different slugs of one handler never get the same
file. `BuildFilename` is a function over the table value, so it cannot change
the table, and `BuildFilenameReadsOnlyExtension` shows that the result depends
only on the key's listed extension and the slug.

Inputs that stand in for what the Go code gets from elsewhere:

- `json.Unmarshal` is not modelled. `Normalize` and `FromDecoded` get the
  record the decoder left behind plus the decoder's error as an
  `Option<string>`. As in the code, the page rewrite happens even when
  decoding failed, and the error is passed on unchanged.
- The configured icon URL (`cfg.GetAppIconURL`) is an `Option<string>` input.
  When it is `Some`, it sets the message's icon URL, on the error path too.

Two behaviours of the code worth stating:

- The code sets the icon URL inside `Normalize`, before decoding. It is not
  set by the request handler after a successful normalization.
- The code never reports a record with a missing actor name as incomplete. An
  empty creator name gives an activity line such as `" created page"`.

## Model

| member | source | states |
|---|---|---|
| `CommonChat.Attachment.AddField` | src/handlers/confluence/handler_confluence_out.go:87-99 | the new field goes after all existing fields, which keep their positions and values |
| `CommonChat.Message.AddAttachment` | src/handlers/confluence/handler_confluence_out.go:102 | the attachment goes after all existing ones; icon URL and activity are unchanged |
| `Confluence.ConfluenceOutMessage.IsComment` | src/handlers/confluence/handler_confluence_out.go:134-139 | the event is a comment event exactly when the comment's modification date is positive |
| `Confluence.ConfluencePage.IsCreated` | src/handlers/confluence/handler_confluence_out.go:155-160 | a page is created exactly when its modification date is positive and equal to its creation date |
| `Confluence.ConfluenceComment.IsCreated` | src/handlers/confluence/handler_confluence_out.go:183-188 | a comment is created exactly when its modification date is positive and equal to its creation date |
| `Confluence.ConfluencePage.IsUpdated` | src/handlers/confluence/handler_confluence_out.go:162-167 | a page is updated exactly when it is not created |
| `Confluence.ConfluenceComment.IsUpdated` | src/handlers/confluence/handler_confluence_out.go:190-195 | a comment is updated exactly when it is not created |
| `Confluence.PageCreatedOnEqualDates` | src/handlers/confluence/handler_confluence_out.go:155-160 | equal positive page dates mean created; unequal dates in either order, or a non-positive modification date, mean updated |
| `Confluence.CommentCreatedOnEqualDates` | src/handlers/confluence/handler_confluence_out.go:183-188 | the same exact-equality rule on the comment's own dates |
| `Confluence.ZeroCommentDateIsPageEvent` | src/handlers/confluence/handler_confluence_out.go:134-139 | a comment whose modification date is not positive makes the event a page event |
| `Confluence.FromDecoded` | src/handlers/confluence/handler_confluence_out.go:115-132 | for a comment event the page becomes the comment's parent; otherwise the record is unchanged; the comment and the comment/page classification are never changed; the decoder's error is passed through |
| `Confluence.FromDecodedIdempotent` | src/handlers/confluence/handler_confluence_out.go:128-131 | applying the rewrite to an already rewritten record changes nothing |
| `Confluence.Classify` | src/handlers/confluence/handler_confluence_out.go:70-82 | the event is a comment kind exactly when `IsComment` holds, and a created kind exactly when the record it is about (comment or page) `IsCreated` |
| `Confluence.ExpectedFields` | src/handlers/confluence/handler_confluence_out.go:84-102 | one field per present source value (at most two); a "Page" link field first when title and link are both non-empty; a "Space" field holding the page's space key last when that key is non-empty; every field short with a non-empty value |
| `Confluence.ExpectedFieldsPresence` | src/handlers/confluence/handler_confluence_out.go:86-100 | a "Page" field exists if and only if the page has title and link; a "Space" field exists if and only if the space key is non-empty; "Page" never follows "Space" |
| `Confluence.Normalize` | src/handlers/confluence/handler_confluence_out.go:58-104 | the icon URL is the configured one or empty; on a decoding error that error is returned with an empty activity and no attachments; otherwise no error, the activity is the actor followed by the phrase chosen by `Classify`, and there is exactly one attachment whose fields are `ExpectedFields` of the rewritten page |
| `Confluence.ActivityNamesEvent` | src/handlers/confluence/handler_confluence_out.go:70-82 | whatever the actor's name, the four activity lines are told apart: the event kind can be read back from the line |
| `Confluence.CommentCreatedScenario` | src/handlers/confluence/handler_confluence_out.go:77-78 | a comment with both dates 1420000000000 is classified as a new comment, so the line is "<creator> commented on page" |
| `Confluence.CommentUpdatedScenario` | src/handlers/confluence/handler_confluence_out.go:79-80 | a comment modified after its creation is classified as an edited comment, so the line is "<creator> updated comment on page" |
| `Confluence.PageWithoutLinkScenario` | src/handlers/confluence/handler_confluence_out.go:86-100 | a page with no link but with a space key gets only the "Space" field |
| `Confluence.NormalizeNewCommentScenario` | src/handlers/confluence/handler_confluence_out.go:58-104 | calling `Normalize` with no icon on a record whose comment has both dates 1420000000000 and whose parent page has a space key but no link gives "<creator> commented on page" and a single attachment holding only the "Space" field with the parent's key |
| `ExampleEvents.ExampleData.Extension` | src/util/example_events.go:106-111 | the extension is "json" for an unlisted key, "json" for a listed key with an empty extension, and the listed extension otherwise; never empty |
| `ExampleEvents.ExampleData.BuildFilename` | src/util/example_events.go:105-113 | the name is the prefix, the slug, "." and the resolved extension; `SlugOf` with that extension gives the slug back |
| `ExampleEvents.SlugOfBuilt` | src/util/example_events.go:112 | stripping the prefix and the extension from a built name gives back exactly the slug |
| `ExampleEvents.BuildFilenameInjective` | src/util/example_events.go:105-113 | two slugs of one handler that give the same name are the same slug |
| `ExampleEvents.BuildFilenameReadsOnlyExtension` | src/util/example_events.go:105-113 | the name depends on the table only through the key's listed extension; other entries and the slug lists play no part |
| `ExampleEvents.HerokuFilename` | src/util/example_events.go:53-56 | with the embedded table, heroku's "build" fixture is "event-example_build.txt" |
| `ExampleEvents.ConfluenceFilename` | src/util/example_events.go:44-46 | with the embedded table, confluence lists no extension, so "page-created" gives "event-example_page-created.json" |
| `ExampleEvents.UnlistedFilename` | src/util/example_events.go:106-107 | a key missing from the embedded table gets the default extension |

## Left out

- `HandleFastHTTP`, `NewHandler` and the `Handler` struct: HTTP request and response handling, status codes and delivery through the adapter are I/O and foreign code. `HandlerKey`, `MessageDirection` and `DisplayName` are kept as constants.
- JSON decoding (`json.Unmarshal`) of the webhook body and of the embedded example table: a library decoder. The decoded record and the decoder's error are inputs, and the table is written out as the map `Embedded`. As with Go's decoder, the stray `event_slugs_` and `event_slugs__` members are ignored.
- `cfg.GetAppIconURL`: a configuration lookup, replaced by an `Option<string>` input.
- Logging calls: a side channel with no behaviour to state.
- `ExampleMessageBytes`, the fixtures directory and reading the file: filesystem I/O and configuration.
- The `runscope` example wrapper only reads a fixture and calls a normalizer that is not part of this model.
- The canonical message library's other members (title, text, colours and so on) are not used by this normalizer and are not modelled.
- `SetStatusCode`, `SendWebhook` and the adapter: not modelled, since they are delivery, not normalization.
