# Discord build notifier: a Dafny model

This project models the core of a Jenkins plugin that posts a chat message to a
Discord webhook when a build finishes. It covers two components:

- **The bounded description builder** (`util/EmbedDescription.java`). It builds a
  prefix, a changes list and an optional artifacts list. It then shrinks them in
  priority order until the joined text fits in 2048 characters: first the changes
  list is cut to five elements, then the artifacts list is collapsed to the bare
  artifacts URL, and as the last resort the text is cut to 2047 characters. In
  `embed_description.dfy` this is the class `EmbedDescription`. Its constructor
  works step by step on the object, as the source does: it reassigns the two
  list fields, which hold immutable sequences. Its contract ties the result
  to the specification functions `Initial*`, `Shrink`, `Finish` and `Describe`. The
  lemmas state the algorithm's guarantees about those functions.
- **The notification decision and composition** (`WebhookPublisher.java`). This
  covers the suppression rules, the lasting switch-off of URL linking, the status
  colour, the title, the layout of the description prefix, markdown link escaping
  and the webhook-URL validator. In `webhook_publisher.dfy` this is the class
  `WebhookPublisher`, whose mutable field is `enableUrlLinking`. `Perform` is
  proved against the specification function `Notification`.

Shared helpers live in `wrappers.dfy` (`Option`, which stands for a Java reference
that may be null) and `strings.dfy` (StringBuilder joining, Java's rendering of a
null string, ASCII lower-casing).

Jenkins collaborators become plain values:
- the build is a `Build` record;
- `JenkinsLocationConfiguration.get()` is an `Option<LocationConfiguration>`;
- `env.expand` is a parameter `expand: string -> string`.

The outbound `DiscordWebhook` is a `Webhook` record of the fields set on it.
`Perform` returns `Some(webhook)` exactly when the source calls `send()`.

The build result is a `Result(name, ordinal, completeBuild)` record, compared by
ordinal. The constants `Success`, `Unstable`, `Failure`, `NotBuilt` and `Aborted`
follow Jenkins's `hudson.model.Result`. That file is not part of this model. The
lemmas about colours and suppression hold for every `Result` value.

Behaviour of the code worth noting:
- Change pruning keeps five list elements, which are the header and the first
  four change lines.
- The URL-linking switch-off is stored on the publisher and persists across later
  calls. `LinkingStaysOff` and `LinkingOffAcrossCalls` state this.
- The configuration-matrix block comes at the end of the description prefix,
  after the status line.
- The suppression checks run in the code's order: global configuration, result,
  webhook URL, state change, completeness.
- Each artifact line ends with a newline. The collapsed artifacts list is the bare
  URL, without a header or a newline.

## Model

| member | source | states |
|---|---|---|
| `Strings.ToLowerAscii` | src/main/java/nz/co/jammehcow/jenkinsdiscord/WebhookPublisher.java:144 | Lower-casing keeps the length, maps each character on its own and leaves no upper-case ASCII letter. |
| `EmbedDescription.ShortCommitId` | src/main/java/nz/co/jammehcow/jenkinsdiscord/util/EmbedDescription.java:35-38 | A null id is "null"; otherwise the result is a prefix of the id of length min(6, length of id). |
| `EmbedDescription.ChangeLineFields` | src/main/java/nz/co/jammehcow/jenkinsdiscord/util/EmbedDescription.java:40-41 | A change line is "   - ``", the short id, "`` *", the message, " - ", the author and "*" plus a newline. Each separator and each field sits at its fixed offset, and the length is the fields' lengths plus 16. |
| `EmbedDescription.ArtifactsUrlParts` | src/main/java/nz/co/jammehcow/jenkinsdiscord/util/EmbedDescription.java:24 | The artifacts URL starts with the instance URL, or with the text "null" when that is unset. The build URL follows, and it ends with "artifact/". |
| `EmbedDescription.ArtifactLineFields` | src/main/java/nz/co/jammehcow/jenkinsdiscord/util/EmbedDescription.java:52 | An artifact line is " - ", the artifacts URL, the href and a newline. The URL and the href can be read back at their offsets. |
| `EmbedDescription.Shrink` | src/main/java/nz/co/jammehcow/jenkinsdiscord/util/EmbedDescription.java:57-69 | When the loop stops the parts fit, or both lists are minimal. The prefix is unchanged. Changes are either unchanged or cut from the end to exactly five elements, and only when the text did not fit. Artifacts are either unchanged or replaced whole by the bare URL, and only after pruning and only when the pruned text still did not fit. Parts that fit are left alone. |
| `EmbedDescription.Rounds` | src/main/java/nz/co/jammehcow/jenkinsdiscord/util/EmbedDescription.java:57-69 | The shrink loop runs at most three rounds (at most one more than the shrink steps still available), and runs none exactly when the text already fits. |
| `EmbedDescription.Finish` | src/main/java/nz/co/jammehcow/jenkinsdiscord/util/EmbedDescription.java:66-71 | The final text is at most 2048 characters. It is the whole text when that fits; otherwise it is exactly 2047 characters and a prefix of the whole text. |
| `EmbedDescription.Describe` | src/main/java/nz/co/jammehcow/jenkinsdiscord/util/EmbedDescription.java:23-88 | The description is at most 2048 characters. If prefix + changes + artifacts fits, it is exactly that, in that order. When truncation fires, it is 2047 characters cut from the shrunk text. Otherwise it starts with the unmodified prefix. |
| `EmbedDescription.EmptyAndDisabledLists` | src/main/java/nz/co/jammehcow/jenkinsdiscord/util/EmbedDescription.java:26-50 | No changes give the changes header and "*No changes.*". Enabled artifacts with none saved give the artifacts header and "*No artifacts saved.*". Disabled artifacts give an empty list. |
| `EmbedDescription.ShrinkIdempotent` | src/main/java/nz/co/jammehcow/jenkinsdiscord/util/EmbedDescription.java:57-69 | Shrinking already-shrunk parts changes nothing: where the loop stops is a fixed point. |
| `EmbedDescription.ShrinkKeepsChangesPrefix` | src/main/java/nz/co/jammehcow/jenkinsdiscord/util/EmbedDescription.java:58-60 | The pruned changes text is a prefix of the original changes text and never longer. |
| `EmbedDescription.EmptyChangesNoArtifacts` | src/main/java/nz/co/jammehcow/jenkinsdiscord/util/EmbedDescription.java:26-31 | An empty change set with artifacts disabled yields prefix + "\n**Changes:**\n\n*No changes.*\n", cut to 2047 characters only when that is too long. |
| `EmbedDescription.LongChangeSetKeepsFirstFour` | src/main/java/nz/co/jammehcow/jenkinsdiscord/util/EmbedDescription.java:57-60 | Take five or more changes, artifacts disabled and a text that is too long. If the header and the first four change lines fit with the prefix, the output is exactly that, in input order. |
| `EmbedDescription.PruneThenFit` | src/main/java/nz/co/jammehcow/jenkinsdiscord/util/EmbedDescription.java:57-71 | If one pruning round makes the parts fit, the output is the pruned text. |
| `EmbedDescription.EmbedDescription.constructor` | src/main/java/nz/co/jammehcow/jenkinsdiscord/util/EmbedDescription.java:23-72 | The final description equals `Describe` of the inputs. The lists end where `Shrink` stops. The object is valid. |
| `EmbedDescription.EmbedDescription.AddChanges` | src/main/java/nz/co/jammehcow/jenkinsdiscord/util/EmbedDescription.java:28-43 | Appends "no changes" for an empty change set, or one formatted line per change in input order. |
| `EmbedDescription.EmbedDescription.AddArtifacts` | src/main/java/nz/co/jammehcow/jenkinsdiscord/util/EmbedDescription.java:45-55 | Appends "no artifacts saved" for none, or one URL line per artifact in input order. |
| `EmbedDescription.EmbedDescription.DwindleChanges` | src/main/java/nz/co/jammehcow/jenkinsdiscord/util/EmbedDescription.java:60 | Removing from the end leaves exactly the first five elements. |
| `EmbedDescription.EmbedDescription.CollapseArtifacts` | src/main/java/nz/co/jammehcow/jenkinsdiscord/util/EmbedDescription.java:62-63 | The artifacts list becomes the single bare artifacts URL. |
| `EmbedDescription.EmbedDescription.GetCurrentDescription` | src/main/java/nz/co/jammehcow/jenkinsdiscord/util/EmbedDescription.java:74-83 | The appended text is the prefix, then every change element, then every artifact element, in order. |
| `EmbedDescription.EmbedDescription.ToString` | src/main/java/nz/co/jammehcow/jenkinsdiscord/util/EmbedDescription.java:85-88 | The description is at most 2048 characters. It is comparable by prefix with the prefix. When the parts fit, it is their whole text. |
| `WebhookPublisher.ColorFor` | src/main/java/nz/co/jammehcow/jenkinsdiscord/WebhookPublisher.java:111-113 | GREEN exactly for results better than or equal to SUCCESS. YELLOW exactly for results worse than SUCCESS but not worse than UNSTABLE. RED exactly for results worse than UNSTABLE. |
| `WebhookPublisher.ColorMonotone` | src/main/java/nz/co/jammehcow/jenkinsdiscord/WebhookPublisher.java:111-113 | A worse result never gets a milder colour. |
| `WebhookPublisher.StandardColors` | src/main/java/nz/co/jammehcow/jenkinsdiscord/WebhookPublisher.java:111-113 | SUCCESS is GREEN, UNSTABLE is YELLOW, and FAILURE, NOT_BUILT and ABORTED are RED. |
| `WebhookPublisher.StatusColorOf` | src/main/java/nz/co/jammehcow/jenkinsdiscord/WebhookPublisher.java:108-113 | The three assignments in sequence, each overriding the last, compute `ColorFor`. |
| `WebhookPublisher.EscapeParens` | src/main/java/nz/co/jammehcow/jenkinsdiscord/WebhookPublisher.java:194 | The escaped URL is never shorter. Every ')' in it is preceded by a backslash. It never starts with ')'. |
| `WebhookPublisher.UnescapeEscape` | src/main/java/nz/co/jammehcow/jenkinsdiscord/WebhookPublisher.java:193-196 | Reading "\)" back as ')' recovers the original URL exactly. |
| `WebhookPublisher.MarkdownHyperlink` | src/main/java/nz/co/jammehcow/jenkinsdiscord/WebhookPublisher.java:193-196 | A link is "[" + content + "](" + target + ")", with the content not escaped. The target has a backslash before every ')' and reads back as the URL when "\)" is read as ')'. |
| `WebhookPublisher.DoCheckWebhookURL` | src/main/java/nz/co/jammehcow/jenkinsdiscord/WebhookPublisher.java:182-186 | Accepts exactly strings that match the whole webhook-URL shape. Otherwise it returns the error "Please enter a valid Discord webhook URL.". |
| `WebhookPublisher.RenderedIsAccepted` | src/main/java/nz/co/jammehcow/jenkinsdiscord/WebhookPublisher.java:183 | Every URL built from well-formed parts is accepted. The parts are: https://, then canary./ptb./nothing, then discordapp.com/api/webhooks/, 18 digits and '/', a token of word, '-' or '_' characters, and an optional '/'. |
| `WebhookPublisher.AcceptedIsRendered` | src/main/java/nz/co/jammehcow/jenkinsdiscord/WebhookPublisher.java:183 | Every accepted string is built from such well-formed parts. |
| `WebhookPublisher.TwoAxisBlock` | src/main/java/nz/co/jammehcow/jenkinsdiscord/WebhookPublisher.java:126-128 | The axes arch: x64 and os: linux, given in key order, give "**Configuration matrix:**\n - arch: x64\n - os: linux\n", in that order. The example fixes the order itself; in Jenkins a combination is a map sorted by axis name. |
| `WebhookPublisher.CombinationString` | src/main/java/nz/co/jammehcow/jenkinsdiscord/WebhookPublisher.java:126-128 | The block grown in the loop is the header followed by one " - key: value\n" line per axis, in order. |
| `WebhookPublisher.WebhookPublisher.constructor` | src/main/java/nz/co/jammehcow/jenkinsdiscord/WebhookPublisher.java:44-53 | Every setting is stored as given. |
| `WebhookPublisher.WebhookPublisher.Title` | src/main/java/nz/co/jammehcow/jenkinsdiscord/WebhookPublisher.java:117-125 | Unless a custom title replaces it, the title ends with " #" and the build id. This holds for matrix configurations and for publishers without a custom title. |
| `WebhookPublisher.WebhookPublisher.DescriptionPrefix` | src/main/java/nz/co/jammehcow/jenkinsdiscord/WebhookPublisher.java:131-153 | The prefix opens with the branch line (empty without a branch) and "**Build:** ". Then come the id, "\n**Status:** ", the lower-cased result name and "\n", each shown as a link when a link is given and as plain text otherwise. It ends with the matrix block. |
| `WebhookPublisher.WebhookPublisher.Payload` | src/main/java/nz/co/jammehcow/jenkinsdiscord/WebhookPublisher.java:115-159 | The webhook carries a URL exactly when linking is active, and then it is instance URL + build URL. The description is present and at most 2048 characters, and it is comparable by prefix with the description prefix built for that same URL. |
| `WebhookPublisher.WebhookPublisher.Notification` | src/main/java/nz/co/jammehcow/jenkinsdiscord/WebhookPublisher.java:73-169 | Nothing is sent exactly when a suppression rule applies. A sent webhook carries a URL exactly when linking is on at the start of the call and the instance URL is set and non-empty. |
| `WebhookPublisher.WebhookPublisher.SentUnlessSuppressed` | src/main/java/nz/co/jammehcow/jenkinsdiscord/WebhookPublisher.java:77-110 | No webhook is sent exactly when a suppression rule applies. The rules are: null global configuration; null result; empty webhook URL; state-change mode with a previous build of equal result; an incomplete result. |
| `WebhookPublisher.WebhookPublisher.SentPayload` | src/main/java/nz/co/jammehcow/jenkinsdiscord/WebhookPublisher.java:115-159 | A sent webhook carries: the expanded target, the title, the colour of the result and the thumbnail as configured; a URL exactly when linking is active, equal to instance URL + build URL; a description of at most 2048 characters; and the footer exactly when footers are enabled. |
| `WebhookPublisher.WebhookPublisher.LinksLeadToBuild` | src/main/java/nz/co/jammehcow/jenkinsdiscord/WebhookPublisher.java:138-145 | With linking, the prefix is the branch line, "**Build:** " and a link on the id, "\n**Status:** " and a link on the lower-cased result, then "\n" and the matrix block. Both link targets read back as instance URL + build URL. |
| `WebhookPublisher.WebhookPublisher.LinkingStaysOff` | src/main/java/nz/co/jammehcow/jenkinsdiscord/WebhookPublisher.java:95-99 | Once the flag is false, every later call keeps it false and sends no URL. |
| `WebhookPublisher.WebhookPublisher.LinkingSwitchOff` | src/main/java/nz/co/jammehcow/jenkinsdiscord/WebhookPublisher.java:95-99 | Linking is switched off exactly when a call gets past the first three checks and the instance URL is null or empty. |
| `WebhookPublisher.WebhookPublisher.MatrixTitle` | src/main/java/nz/co/jammehcow/jenkinsdiscord/WebhookPublisher.java:124-125 | A matrix configuration is titled "<parent display name> #<id>", overriding any custom title. |
| `WebhookPublisher.WebhookPublisher.PlainTitle` | src/main/java/nz/co/jammehcow/jenkinsdiscord/WebhookPublisher.java:117-121 | Without a matrix, a non-empty custom title is used after expansion. Otherwise the title is "<display name> #<id>". |
| `WebhookPublisher.WebhookPublisher.Perform` | src/main/java/nz/co/jammehcow/jenkinsdiscord/WebhookPublisher.java:73-169 | Returns true on every path. Leaves the linking flag as `LinkingAfter` says. Sends exactly the webhook `Notification` describes. |
| `WebhookPublisher.WebhookPublisher.Compose` | src/main/java/nz/co/jammehcow/jenkinsdiscord/WebhookPublisher.java:108-159 | The webhook filled field by field equals `Payload` for the current linking flag. |
| `WebhookPublisher.WebhookPublisher.PrefixOf` | src/main/java/nz/co/jammehcow/jenkinsdiscord/WebhookPublisher.java:131-153 | The prefix is built in this order: optional branch line, build line, status line, matrix block. Build and status are links when a link is given and plain text otherwise. |
| `WebhookPublisher.LinkingOffAcrossCalls` | src/main/java/nz/co/jammehcow/jenkinsdiscord/WebhookPublisher.java:95-99 | Two calls on one publisher: after the first call switches linking off, the second sends no URL, even if the instance URL is set by then. |

## Left out

- Logging to the build listener is plain I/O, so the log lines are not modelled.
- `DiscordWebhook.send()` and `WebhookException` are network I/O, and their class is not part of this model. A returned `Some(webhook)` stands for "send requested". The exception is caught in the source, so it never changes the result.
- The Jenkins plugin lifecycle is not modelled: extension registration, `DescriptorImpl`, `isApplicable`, `getRequiredMonitorService`, `needsToRunAfterFinalized` and the getters. `getDescriptor().getDisplayName()` and `getVersion()` appear only as the constants "Discord Notifier" and "1.4.4".
- `build.getEnvironment`, `EnvVars.expand`, `getChangeSet`, `getArtifacts` and `getHudsonVersion` are foreign Jenkins APIs. They are inputs: the `expand` parameter and the fields of `Build`.
- `Result.isCompleteBuild()` is the `completeBuild` field of `Result`, not the Jenkins implementation.
- `String.format`'s `%n` line separator depends on the platform. It is fixed to "\n".
- Lengths count Dafny characters (Unicode scalar values). Java counts UTF-16 code units, so the two differ for characters outside the Basic Multilingual Plane.
- `toLowerCase` is modelled on ASCII letters only, with no locale rules. Result names are ASCII.
- General regular-expression semantics are not modelled. Only the one webhook-URL shape is stated, with `\w` as ASCII letters, digits and '_' (Java's default) and `\d` as ASCII digits.
- A null commit message, author name, webhook URL or build id is not modelled. These are plain strings. In the source, a null webhook URL would throw at `isEmpty()`.
- The matrix combination comes from `MatrixConfiguration.getCombination()`, which is not part of this model. In Jenkins it is a map sorted by axis name. The model takes the axes in the order given, and it is the caller that supplies them in key order.
- `EmbedDescription.EmbedDescription.DwindleChanges`: it requires more than five elements, which is the guard its only caller has (EmbedDescription.java:58). On a list of fewer than five, the source's loop would empty the list and then `removeLast()` would throw `NoSuchElementException`. The guard makes that path unreachable, so it is not modelled.
- `WebhookPublisher.MarkdownHyperlink`: the source escapes only ')' and leaves backslashes as they are. A URL holding `a\)` becomes the target `a\\)`, which a CommonMark reader takes as an escaped backslash followed by a bare ')'. The read-back property is stated for the reading in which only `\)` is an escape (`Unescape`), not for CommonMark's.
