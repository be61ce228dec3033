# Tariq roadmap generator: the deterministic core, in Dafny

The Tariq backend takes a learning topic. It asks an LLM for the skills the
topic needs and, for each skill, for learning resources. It lays skills and
resources out as a PDF roadmap and mails the PDF to the user. Most of the
code is glue around an HTTP client, a PDF library and a mail sender. This
project models the deterministic logic underneath:

- `OpenAIController` (module `OpenAi`) handles the generate-skills and
  generate-resources endpoints. Each one has an empty-input guard, a fixed
  prompt template, and a chain of envelope look-ups that may throw. Each maps
  every exception to a 500 carrying a fixed head and the exception message.
  Only generate-skills cleans the model's reply before parsing it: it deletes
  every "```json", then every "```", then applies Java `trim`
  (modules `Fences` and `JavaText`).
- `PdfGeneratorService.generateRoadmapPdf` (module `Roadmap`) is modelled as
  the ordered list of paragraphs it adds to the document, before any PDF
  bytes exist. `fetchResourcesForSkill` returns `null` on any failure. Here
  it is a total function of the skill name and of the reply from the
  application's own generate-resources endpoint.
- `EmailController.sendRoadmapEmail` (module `EmailHandler`) validates the
  request, builds the document, hands one mail to the mail service, and
  answers with an exact status and body for each outcome.

The world outside is passed in as parameters. These are the chat-completion
call, the JSON reader, the messages of the JVM's own exceptions, the resource
endpoint as seen by the i-th lookup, the PDF renderer and the mail service.
Each handler returns a trace next to its response. For the LLM endpoints the
trace is the prompts sent and the strings handed to the JSON reader. For the
mail endpoint it is the documents rendered and the mails submitted. Contracts
use the trace to state what was called and with what.

A Java `null` is `None`. String concatenation of a `null` prints `"null"`
(`JavaText.Show`). A request entry of the wrong JSON type is `Mistyped`: its
cast throws `ClassCastException` before validation runs.

Behaviour of the code worth knowing:

- Only generate-resources checks for a null or empty `choices` list. It answers
  "No choices found in OpenAI API response.". generate-skills has no such check.
  It fails with the JVM's null-dereference or index message instead.
- generate-resources does not strip fences. It passes the model's content to
  the JSON reader unchanged.
- Nothing makes a skill name non-empty. A skill with no name is headed
  "Skill: null", and its lookup fails, so its section shows the fallback line.
- Only a `MessagingException` yields "Failed to send email. Please try again.".
  An unchecked exception from the mail service gets "An unexpected error
  occurred." instead. So does a rendering failure, and no mail is sent then.
- The document has a "\nSkills:" paragraph after the title. The resources
  heading is "\nLearning Resources:", with a leading newline.
- generate-skills may answer 200 with an empty list, or with records that lack
  a "name". The model promises no non-empty result.

## Model

| member | source | states |
|---|---|---|
| `JavaText.Trim` | src/main/java/com/tariqmap/controllers/OpenAIController.java:55 | `trim` leaves no leading or trailing char at or below U+0020, and what it removes from each end is blank |
| `JavaText.TrimCharacterized` | src/main/java/com/tariqmap/controllers/OpenAIController.java:55 | any cut of the input into blank margins around a trimmed middle is exactly what `trim` returns |
| `JavaText.TrimFixedPoint` | src/main/java/com/tariqmap/controllers/OpenAIController.java:55 | `trim` returns its input unchanged if and only if the input has no outer blank |
| `JavaText.TrimIgnoresPadding` | src/main/java/com/tariqmap/controllers/OpenAIController.java:55 | adding blank padding on either side does not change what `trim` returns |
| `JavaText.RemoveAll` | src/main/java/com/tariqmap/controllers/OpenAIController.java:55 | literal `replaceAll(p, "")` leaves a string without `p` unchanged and makes a string that contains `p` strictly shorter, so it changes its input if and only if `p` occurs in it |
| `JavaText.RemoveLeftmost` | src/main/java/com/tariqmap/controllers/OpenAIController.java:55 | the leftmost occurrence is deleted: when no match starts inside `x`, `x + p + y` becomes `x` followed by the result for `y` |
| `JavaText.RemoveAllPastPrefix` | src/main/java/com/tariqmap/controllers/OpenAIController.java:55 | the left-to-right scan copies a prefix that has no match starting inside it unchanged |
| `Fences.StripFences` | src/main/java/com/tariqmap/controllers/OpenAIController.java:55 | the cleaned reply contains no "```" and has no leading or trailing blank |
| `Fences.NoFenceSurvives` | src/main/java/com/tariqmap/controllers/OpenAIController.java:55 | after deleting every "```" left to right, none is left, even where the deletions join backticks |
| `Fences.StripIdempotent` | src/main/java/com/tariqmap/controllers/OpenAIController.java:55 | cleaning a reply twice gives the same result as cleaning it once |
| `Fences.StripFixedPoint` | src/main/java/com/tariqmap/controllers/OpenAIController.java:55 | cleaning leaves a reply unchanged if and only if it has no "```" and no outer blank |
| `Fences.StripFencedBlock` | src/main/java/com/tariqmap/controllers/OpenAIController.java:55 | a reply shaped as a "```json" line, then JSON without fences, then a "```" line, cleans to the trimmed JSON |
| `Fences.StripFencedEmptyArray` | src/main/java/com/tariqmap/controllers/OpenAIController.java:55 | a fenced "[]" reply contains fences and cleans to the bare "[]" |
| `OpenAi.SkillsContent` | src/main/java/com/tariqmap/controllers/OpenAIController.java:51-55 | the unguarded chain to `choices[0].message.content` succeeds exactly when every link is present, and then yields that content; otherwise it fails with the JVM's message for the site that broke: null `choices`, empty `choices`, null `message`, or null `content` at `replaceAll` |
| `OpenAi.NullDereferenceSites` | src/main/java/com/tariqmap/controllers/OpenAIController.java:51-99 | when each site has its own JVM message, a null `message` fails alike in both handlers (same expression), a null `content` fails differently (`replaceAll` against the JSON reader), and a null `choices` and a null `message` give different failures |
| `OpenAi.ResourcesContent` | src/main/java/com/tariqmap/controllers/OpenAIController.java:89-99 | as above, but a null or empty `choices` fails with "No choices found in OpenAI API response.", and a null `content` fails in the JSON reader with its null-argument message |
| `OpenAi.GenerateSkills` | src/main/java/com/tariqmap/controllers/OpenAIController.java:31-62 | 400 "Topic cannot be empty." with no prompt sent if and only if the topic is null or empty; otherwise exactly one prompt is sent for that topic; 200 only with the list the reader made of the string it was given; a 500 body starts with the fixed head; the reader only ever sees strings without fences or outer blanks |
| `OpenAi.GenerateResources` | src/main/java/com/tariqmap/controllers/OpenAIController.java:66-109 | 400 "Skill name cannot be empty." with no prompt sent if and only if the name is null or empty; otherwise exactly one prompt is sent for that name; 200 only with what the reader returned; a 500 body names the skill |
| `OpenAi.PromptsDetermineInput` | src/main/java/com/tariqmap/controllers/OpenAIController.java:38-78 | each prompt is a fixed head, then the topic or skill name verbatim, then a fixed tail, so the prompt determines the input |
| `OpenAi.FailureBodiesDetermineCause` | src/main/java/com/tariqmap/controllers/OpenAIController.java:58-107 | a 500 body is a fixed head (naming the skill for resources) followed by the exception message, which can be read back |
| `OpenAi.SkillsFailuresMapTo500` | src/main/java/com/tariqmap/controllers/OpenAIController.java:45-61 | a failed call, a failed envelope read, or a broken content chain each give 500 with the head plus that exception's message |
| `OpenAi.ResourcesFailuresMapTo500` | src/main/java/com/tariqmap/controllers/OpenAIController.java:80-108 | the same mapping for generate-resources, with the skill name in the body |
| `OpenAi.NoChoicesGuard` | src/main/java/com/tariqmap/controllers/OpenAIController.java:51-92 | for a null or empty `choices`, generate-resources answers its own message and reads no content; generate-skills passes on the JVM's message |
| `OpenAi.SkillsReadStrippedContent` | src/main/java/com/tariqmap/controllers/OpenAIController.java:53-57 | generate-skills hands the reader exactly the cleaned content and answers with the reader's result |
| `OpenAi.ResourcesReadRawContent` | src/main/java/com/tariqmap/controllers/OpenAIController.java:96-102 | generate-resources hands the reader the content exactly as delivered, without cleaning |
| `OpenAi.FencedReplyAsymmetry` | src/main/java/com/tariqmap/controllers/OpenAIController.java:55-99 | the same fenced reply reaches the skills reader as "[]" and the resources reader with its fences |
| `Roadmap.ResourceLines` | src/main/java/com/tariqmap/services/PdfGeneratorService.java:51-54 | two paragraphs per resource, " - title (type)" then "   URL: url", in list order |
| `Roadmap.Section` | src/main/java/com/tariqmap/services/PdfGeneratorService.java:40-59 | a section is "Skill: ", "Description: ", "\nLearning Resources:", then either the resource lines or exactly one "No resources available.", then "\n"; its length is 4 + (2·count if found and non-empty, else 1) |
| `Roadmap.Sections` | src/main/java/com/tariqmap/services/PdfGeneratorService.java:39-60 | the sections together have the length given by the per-section sum |
| `Roadmap.Paragraphs` | src/main/java/com/tariqmap/services/PdfGeneratorService.java:36-60 | the document starts with "Roadmap for: " + topic and "\nSkills:", then the sections; its length is 2 + Σ section sizes |
| `Roadmap.SectionsAppend` | src/main/java/com/tariqmap/services/PdfGeneratorService.java:39-60 | the sections of two consecutive skill lists are the first list's sections followed by the second's |
| `Roadmap.SectionPlacement` | src/main/java/com/tariqmap/services/PdfGeneratorService.java:39-60 | skill k's section sits right after the sections of the skills before it |
| `Roadmap.LookupIsolation` | src/main/java/com/tariqmap/services/PdfGeneratorService.java:49-57 | changing one skill's lookup outcome changes that skill's section only; every other paragraph stays where it was |
| `Roadmap.FailedLookupFallsBack` | src/main/java/com/tariqmap/services/PdfGeneratorService.java:50-57 | a failed or empty lookup gives its skill exactly the five-paragraph fallback section at that skill's position |
| `Roadmap.SkillOrderPreserved` | src/main/java/com/tariqmap/services/PdfGeneratorService.java:39-44 | reading back the paragraphs that start with "Skill: " gives one heading per input skill, in input order |
| `Roadmap.FetchResourcesForSkill` | src/main/java/com/tariqmap/services/PdfGeneratorService.java:66-82 | a lookup finds resources only for a non-null name and a 2xx reply that carries a resource list, and then finds exactly that list; every other case is `None` |
| `Roadmap.EndpointIsolation` | src/main/java/com/tariqmap/services/PdfGeneratorService.java:39-60 | when two endpoints answer alike for every skill but skill k, the two documents differ only in skill k's section, which sits at the same position in both |
| `Roadmap.SelfLookup` | src/main/java/com/tariqmap/services/PdfGeneratorService.java:66-82 | through the generate-resources endpoint, a null or empty name never finds anything, and what is found is what the reader made of the raw content |
| `Roadmap.UnnamedSkillFallsBack` | src/main/java/com/tariqmap/services/PdfGeneratorService.java:49-57 | a skill whose name is null or empty always gets the fallback section |
| `EmailHandler.SendRoadmapEmail` | src/main/java/com/tariqmap/controllers/EmailController.java:30-60 | 400 "Topic, email, and skills are required." with no document and no mail if and only if the fields are well typed and one is null or empty; one document per valid request; one mail exactly when rendering succeeds, with the given address, the fixed subject and letter, and the rendered bytes; 200 "Roadmap sent to " + email if and only if that mail was delivered; "Failed to send email. Please try again." if and only if the send threw a `MessagingException` |
| `EmailHandler.TemplatesDetermineInput` | src/main/java/com/tariqmap/controllers/EmailController.java:44-52 | the subject, letter and confirmation are fixed text around the topic or address, verbatim, and each determines it |
| `EmailHandler.FailureDetailNotExposed` | src/main/java/com/tariqmap/controllers/EmailController.java:53-58 | the response depends only on the kind of mail failure, never on its message |
| `EmailHandler.RenderFailureSendsNothing` | src/main/java/com/tariqmap/controllers/EmailController.java:41-58 | a document that cannot be rendered yields 500 "An unexpected error occurred." and no mail |
| `EmailHandler.DeliveredPath` | src/main/java/com/tariqmap/controllers/EmailController.java:41-52 | on the success path the handler renders one document, hands one mail with those bytes to the mail service, and answers 200 |
| `EmailHandler.RustScenario` | src/main/java/com/tariqmap/controllers/EmailController.java:30-52 | topic "Rust", one skill "Ownership" and two resources give a ten-paragraph roadmap with exactly two resource entries, one mail with subject "Your Roadmap for Rust", and 200 |

## Left out

- `callOpenAiApi` is left out. The HTTP post, the bearer credential, the model name "gpt-3.5-turbo", the status check and the re-wrapped message "OpenAI API call failed. Error: …" are network I/O. The call is the `complete` parameter, which returns a reply body or the message of the exception thrown.
- Jackson's `readValue` is a foreign library. The envelope reader and the two content readers are parameters. A reader that yields JSON `null` (content "null") is not modelled.
- The casts inside the envelope chain are not modelled, for example a `content` that is not a string. Such a failure counts as one of the reader's failures.
- The messages of JVM exceptions are platform text. They are the `faultMessage` parameter, with one `Fault` per dereferencing expression, because the JVM's message names the expression. The same expression in both handlers gives the same message. An exception whose message is `null` would print "Error: null". The model treats every message as a string.
- `fetchResourcesForSkill` reaches the generate-resources endpoint over HTTP. The model assumes the resource list survives the JSON round trip unchanged.
- Roadmap.FetchResourcesForSkill: a 2xx reply whose body is not a resource list counts as not found. Jackson would instead read a list of other JSON objects and print " - null (null)" lines. The generate-resources endpoint never sends such a reply.
- iText `Document`/`PdfWriter` are a foreign renderer. The renderer is a parameter from the paragraph list to bytes or a `DocumentException`.
- `EmailService` is a thin wrapper over JavaMailSender. Its fixed sender address and the attachment name "Roadmap.pdf" are not in the `Mail` record.
- Skill entries that are not JSON objects, and object values that are not strings, are not modelled. They throw `ClassCastException`, or `NullPointerException` for a null skill entry, inside the document build.
- Roadmap.LookupIsolation: a found resource list with a null entry (model content `[null]`, which Jackson keeps) is not modelled. In Java `resource.get("title")` throws `NullPointerException`, which `generateRoadmapPdf` does not catch, so the whole request fails with 500 "An unexpected error occurred." and no mail. The isolation holds only for null-free lists.
- Roadmap.EndpointIsolation: the same null-free restriction applies. A null entry in one skill's list fails every section, not just that skill's.
- `replaceAll` takes a regular expression. Both patterns used here have no metacharacters, so `RemoveAll` models deletion of a literal only.
- Java strings are UTF-16 code units, while a Dafny char is a Unicode scalar value. `trim` only looks at chars up to U+0020, which are the same in both.
- `EmailTestController` (a fixed smoke-test endpoint), the React front end, logging, Spring wiring and `@Value` configuration are not part of this model.
