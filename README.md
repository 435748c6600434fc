# AI Assistant Pro — a Dafny model of its account store and request logic

AI Assistant Pro is a Streamlit chat front end to several language-model
providers. This project models its logic in Dafny and proves properties of
that model. The screens are not modelled.

- **`Auth`** (auth.py) models the `UserAuth` store as a class. It holds three
  per-user dictionaries: `users`, `history` and `feedback`. Each dictionary
  stands for one of the store's JSON files.
  - Passwords are kept as salted SHA-256 digests of the form `salt$digest`.
  - Registration, login and password change each check their inputs in the
    source's order, with the source's messages.
  - Profiles are always returned without the digest.
  - History is append-only.
  - Feedback holds at most one entry per response id: a new entry replaces the
    old one for the same response.
  - Deleting an account removes the email from all three dictionaries.
  - The statistics include a satisfaction rate that guards against division
    by zero.
- **`Files`** models `FileProcessor`, which app.py and model_handlers.py define
  identically. It covers:
  - the POSIX `splitext` extension, lower-cased;
  - the four disjoint extension lists and the lookup in them;
  - the dispatch on the kind;
  - the document and Python-source descriptions, with line and word counts and
    the 1000-character preview.
- **`Models`** holds what both copies of `AIModelManager` share:
  - the lookup loop over the model catalogue;
  - the input dictionary;
  - the `input_type` rule;
  - the `prompt[:100]` quote;
  - the layout of the triple-quoted detailed answer.
- **`App`** (app.py) contains:
  - the nine-model catalogue;
  - the simulated call, with icons and response ids;
  - the checks and steps of the "Send to AI" button, ending in a history
    append;
  - the feedback analytics and the numbered history page.
- **`Handlers`** (model_handlers.py) is the older sibling. It has a six-model
  catalogue without icons, responses without ids, and a `Session` class. The
  class holds the in-memory request counter and history that `main` keeps.
- **`Text`**, **`Seqs`** and **`Wrappers`** supply the Python string and
  slicing operations the core relies on, plus the `Option` and `Result` types.

The foreign calls are parameters:
- SHA-256 is a function `string -> seq<byte>` given to the store.
- The 16 random salt bytes, the session id, the response id and every clock
  reading are arguments of the operations that use them.

## Model

| member | source | states |
|---|---|---|
| Text.Count | app.py:566 | the count of a character never exceeds the length, and is zero exactly when the character is absent |
| Text.Split | auth.py:47 | `split(sep)` gives one more piece than there are separators, and no piece contains the separator |
| Text.JoinSplit | auth.py:47 | joining the pieces of a split with the separator gives the original string back |
| Text.SplitJoin | auth.py:42-47 | splitting the join of separator-free pieces gives the same pieces back |
| Text.LastIndexOf | app.py:498 | `rfind` gives -1 exactly when the character is absent; otherwise it is the index of an occurrence with none after it |
| Text.LeadingSpaces | app.py:1000 | counts exactly the maximal whitespace prefix |
| Text.TrailingSpaces | app.py:1000 | counts exactly the maximal whitespace suffix |
| Text.Strip | app.py:1000 | `strip()` is empty exactly when the text is all whitespace; otherwise it is the slice between the whitespace runs and starts and ends on non-whitespace |
| Text.Words | app.py:567 | `split()` gives non-empty, whitespace-free words whose concatenation is the text with all whitespace removed; text that starts with a non-space starts its first word |
| Text.WordsCount | app.py:567 | there is one word for each place where a run of non-whitespace begins, so the word count is the number of such places |
| Text.WordsLeadingWord | app.py:567 | a word followed by nothing or by whitespace is split off whole |
| Text.WordsOfJoin | app.py:567 | splitting the space-join of non-empty, whitespace-free words gives those words back |
| Text.LowerChar | app.py:498 | an ASCII capital becomes the letter 32 code points later, and every other character is kept |
| Text.Lower | app.py:498 | `lower()` keeps the length and maps each character independently |
| Seqs.Take | app.py:454 | `s[:n]` is a prefix of length `min(n, len(s))` |
| Seqs.Last | app.py:758 | `s[-n:]` for a positive `n` holds the last `min(n, len(s))` elements, in order |
| Seqs.Reverse | app.py:760 | `reversed` keeps the length and mirrors the indices |
| Seqs.Recent | app.py:758-760 | `reversed(s[-n:])` holds at most `n` elements, newest first |
| Seqs.NumberedRecent | app.py:898-899 | every shown entry's label is its one-based position in the whole list, counting down from the length |
| Auth.Hex | auth.py:42 | the hex form has two characters per byte, each a lower-case hex digit |
| Auth.HexDigitsAt | auth.py:42 | byte `i` becomes the digit of its high nibble at position `2i` and the digit of its low nibble at `2i+1` |
| Auth.HexDigitsDistinct | auth.py:42 | the sixteen lower-case hex digits are distinct |
| Auth.HexInjective | auth.py:42 | two byte strings with the same hex form are equal |
| Auth.HexHasNoDollar | auth.py:42 | a hex string never contains `$` |
| Auth.HashPassword | auth.py:38-42 | the stored string has exactly one `$`; it splits into the hex salt and the hex SHA-256 of the password followed by the hex salt |
| Auth.VerifyPassword | auth.py:44-51 | a successful check implies that the stored string has exactly one `$`; acceptance and rejection are stated by the lemmas below |
| Auth.VerifyHashedPassword | auth.py:38-51 | a password verifies against any digest made from it, whatever the salt |
| Auth.VerifyAgainstHashed | auth.py:38-51 | against a digest made from password `q`, password `p` verifies exactly when SHA-256 gives `p` and `q` the same digest under that salt |
| Auth.WrongPasswordFails | auth.py:44-51 | with a collision-free SHA-256, any other password than the one hashed is rejected |
| Auth.MalformedDigestRejected | auth.py:46-51 | a stored string without exactly one `$` never verifies; the split-unpack failure becomes `False` |
| Auth.ProfileOf | auth.py:166-171 | a profile copies every field of the record except the password |
| Auth.LoadOrEmpty | auth.py:66-72 | a missing file, or one not parsable as JSON, loads as the empty dictionary; a parsed one loads as its contents |
| Auth.IndexUsers | auth.py:53-59 | loading the users file gives a dictionary whose keys are exactly the keys that occur in the file, plus a duplicate-free insertion order of those keys |
| Auth.FirstAt | auth.py:53-59 | the position of a key's first pair in the file: that pair has the key and no earlier one does |
| Auth.LastAt | auth.py:53-59 | the position of a key's last pair in the file: that pair has the key and no later one does |
| Auth.IndexUsersValues | auth.py:53-59 | every loaded key holds the value of its last pair in the file |
| Auth.IndexUsersOrder | auth.py:53-59 | the insertion order lists the keys by the position of their first pair in the file |
| Auth.Erase | auth.py:219 | removing a key from the insertion order keeps exactly the other keys |
| Auth.EraseKeepsDistinct | auth.py:219 | removing a key keeps the order duplicate-free |
| Auth.EraseConcat | auth.py:219 | removal distributes over concatenation, so the remaining keys keep their relative order |
| Auth.EraseAbsent | auth.py:219 | removing a key that is not listed leaves the order unchanged |
| Auth.RegistrationCheck | auth.py:92-106 | for each of the four failures, an if-and-only-if that says when it is the first check to fail |
| Auth.LoginCheck | auth.py:122-134 | missing credentials are reported first; an unknown email and a wrong password give the same error |
| Auth.PasswordChangeCheck | auth.py:145-158 | an unknown user is reported first, then a wrong current password, then a short new password |
| Auth.Without | auth.py:200 | no kept entry is about the dropped response, and the list never grows |
| Auth.WithoutMembers | auth.py:200 | the filter keeps exactly the entries about other responses |
| Auth.Upsert | auth.py:196-204 | the new entry is last; no earlier entry shares its response id; no other entry is invented |
| Auth.WithoutConcat | auth.py:200 | filtering distributes over concatenation |
| Auth.WithoutNothingToDrop | auth.py:200 | filtering a list that has nothing to drop leaves it unchanged |
| Auth.UpsertKeepsOthers | auth.py:199-204 | the entries for other responses stay exactly as they were, in the same order |
| Auth.UpsertReplaces | auth.py:188-206 | a second submission for the same response replaces the first; with the same entry, the operation is idempotent |
| Auth.WithoutKeepsOnePerResponse | auth.py:200 | filtering keeps the at-most-one-entry-per-response invariant |
| Auth.UpsertKeepsOnePerResponse | auth.py:195-204 | saving feedback keeps the at-most-one-entry-per-response invariant |
| Auth.FindFeedback | app.py:652 | the lookup fails exactly when no entry has the id; otherwise it returns the first entry with that id |
| Auth.FindInConcat | app.py:652 | the first match in a concatenation is in the first part whenever that part has one |
| Auth.FindInWithout | app.py:652 | dropping entries for another response does not change the lookup |
| Auth.UpsertThenFind | auth.py:188-206 | after saving, a lookup of that response finds the new entry, and a lookup of any other response is unchanged |
| Auth.CountRating | auth.py:255-256 | the number of entries with a rating is at most the list length; it is 0 exactly when no entry has the rating, and the length exactly when every entry has it |
| Auth.CountRatingConcat | auth.py:255-256 | the count over a concatenation is the sum of the counts of its parts |
| Auth.RatingsBounded | auth.py:253-256 | positive plus negative never exceeds the total, and equals it exactly when every rating is one of the two |
| Auth.SatisfactionRate | auth.py:258 | the denominator is positive; the rate is 0 for no feedback, otherwise 100 × positive / total, which is at most 100 |
| Auth.SatisfactionSeventyFive | auth.py:258 | three positive entries out of four make exactly 75 per cent |
| Auth.UserAuth.constructor | auth.py:10-23 | each dictionary loads from its file, and a missing file or one not parsable as JSON loads as empty |
| Auth.UserAuth.RegisterUser | auth.py:92-120 | on any failure, the first failing check's message is returned and nothing changes; on success, only the new email is added, it goes last in the order, and the stored digest verifies |
| Auth.UserAuth.LoginUser | auth.py:122-143 | on failure, the check's message is returned and `users` is unchanged; on success, only that user's `last_login` changes and the session id is returned; the store's invariant (users and order agree) is kept |
| Auth.UserAuth.ChangePassword | auth.py:145-164 | on failure, `users` is unchanged; on success, only that user's digest is replaced, and the new password verifies; the store's invariant (users and order agree) is kept |
| Auth.UserAuth.GetUserInfo | auth.py:166-171 | an unknown email gives nothing; a known one gives its profile without the password |
| Auth.UserAuth.GetUserHistory | auth.py:183-186 | the stored list, or empty for an unknown email |
| Auth.UserAuth.SaveUserHistory | auth.py:173-181 | the user's list becomes the old list (empty if absent) plus the new entry; earlier entries and other users are untouched |
| Auth.UserAuth.GetUserFeedback | auth.py:208-211 | the stored list, or empty for an unknown email |
| Auth.UserAuth.SaveUserFeedback | auth.py:188-206 | the user's list becomes the upsert of the entry; a lookup of that response finds the entry; other responses' entries and other users are untouched; the per-response invariant is kept |
| Auth.UserAuth.DeleteUser | auth.py:213-234 | an unknown email changes nothing and gives `False`; otherwise the email leaves all three dictionaries and the order, and later lookups give nothing and empty lists |
| Auth.UserAuth.GetAllUsers | auth.py:236-243 | one profile per user, without passwords, in insertion order |
| Auth.UserAuth.GetUserStats | auth.py:245-267 | unknown emails give nothing; otherwise the history length, the feedback counts with positive + negative ≤ total, the guarded rate, and the profile |
| Files.ExtensionListsDisjoint | app.py:486-491 | no extension is on two kind lists |
| Files.KindOf | app.py:486-491 | the kind that lists the extension, or `Unknown` when no list does |
| Files.KindOfListed | app.py:520-524 | any kind listing the extension is the answer, so the scan order does not matter |
| Files.GetFileType | app.py:520-524 | the scan returns the kind of the extension, and a known kind exactly when some list has the extension |
| Files.SplitExt | app.py:498 | the extension is a suffix of the path; it is empty or starts with its only `.`, and contains no `/`; it is non-empty exactly when the last path component has a `.` with some other character before it |
| Files.SplitExtAt | app.py:498 | when a character other than `.` lies between the last `/` and the last `.`, the extension is the suffix from that last `.` |
| Files.ExtensionAt | app.py:498 | for such a name, the extension is that suffix with its ASCII capitals lowered |
| Files.FileExtension | app.py:498 | the extension is the `splitext` suffix with each character lowered, and is empty or starts with `.` |
| Files.UpperCaseExtension | app.py:498 | `report.PDF` has the extension `.pdf` |
| Files.DoubleExtension | app.py:498 | `a.tar.gz` has the extension `.gz` |
| Files.DotFileHasNoExtension | app.py:498 | `.pdf` has no extension under the `splitext` rule |
| Files.Preview | app.py:568 | text of at most 1000 characters is kept; longer text becomes its first 1000 characters followed by `...` |
| Files.PreviewIdempotent | app.py:568 | previewing a preview changes nothing |
| Files.ProcessDocument | app.py:564-570 | lines = number of newlines + 1; words = the number of `split()` words; the content is the preview; name, size, kind and extension are kept |
| Files.ProcessPython | app.py:556-562 | lines = number of newlines + 1, and the content is the whole text |
| Files.ProcessFile | app.py:493-518 | the result is `Processed` of the upload: no upload gives "No file uploaded"; an unknown kind gives the unsupported-type error; each known kind gets its own description; a success carries the name, the size, the extension and a kind that lists that extension |
| Files.Processed | app.py:493-518 | the outcome of processing stated through `KindOf`; a success carries the upload's name, size and extension and a kind that lists that extension |
| Models.FindModel | app.py:424-431 | nothing is found exactly when no category has the name; a found configuration comes from the first category that has it, and from every such category when the names are disjoint |
| Models.InputTypeOf | app.py:448 | the input type is "text" exactly when there is neither an image nor a file |
| Models.BriefQuote | app.py:454 | the quote is a prefix of the prompt, of length at most 100 |
| Models.LineOffset | app.py:457-479 | every line of an indented template occurs at a known position in its text |
| Models.TemplateQuotesLines | app.py:457-479 | every line of the template occurs in the full triple-quoted text |
| App.CatalogNamesDisjoint | app.py:327-413 | no model name is in both categories |
| App.OnlyDemoRunsWithoutKey | app.py:327-413 | the demo model is the only one that needs no API key |
| App.BriefContent | app.py:453-455 | the brief answer quotes `prompt[:100]` |
| App.DetailedContent | app.py:456-480 | the detailed answer quotes the whole prompt, the Yes/No for the image and for the file, and the model type |
| App.SimulateApiCall | app.py:436-482 | the response carries the model type, "icon type" as its display name, the clock reading, the response id and the input type ("text" exactly when nothing is attached); brief mode quotes `prompt[:100]` and adds the summary; detailed mode quotes the prompt and has no summary |
| App.ProcessWithModel | app.py:418-434 | "Model not found" exactly when no category has the name; otherwise the simulated answer for the configuration of the category that has it |
| App.AnalyzeFeedback | app.py:708-764 | nothing for an empty list; otherwise the total, both counts with positive + negative ≤ total, the guarded rate `SatisfactionRate(positive, total)` (100·positive/total), and the last ten entries newest first |
| App.HistoryPage | app.py:893-899 | at most twenty chats, newest first, each numbered by its position in the whole history |
| App.SendCheck | app.py:1000-1007 | "no input" exactly when there is no non-blank text, no image and no file, where an upload counts only when the mode has its uploader (`HasImage`, `HasFile`); otherwise "missing key" exactly when the model needs a key and none or an empty one was entered (`HasApiKey`) |
| App.HasText | app.py:1000 | there is text exactly when the mode has a text box and the text has a non-whitespace character |
| App.PrepareInput | app.py:1010-1031 | the text is stripped when there is text; it fails exactly when an upload the mode takes fails to process, with the image's error first and otherwise the file's; on success each upload the mode takes is present with exactly the description `process_file` gives it |
| App.HistoryEntryFor | app.py:1042-1048 | the saved entry copies the response's timestamp, model name, content and id, and keeps the input as sent |
| App.SendToAi | app.py:998-1087 | validation failures come first, and a "no input" or "missing key" error only when validation gives it; then an image processing failure, then a file processing failure, each with the error `process_file` gives; once validation and both uploads pass, the request is answered exactly when some category lists the model, and otherwise fails with "Model not found"; nothing is saved on any error; an answer's input holds the stripped text and exactly the descriptions `process_file` gives the uploads the mode takes; an answer is the simulated call for that input and is appended to the user's history |
| App.AcceptedButUnsupported | app.py:977-987 | `.webp`, `.json` and `.xml`, which the uploaders accept, are of unknown kind, so `process_file` rejects them |
| Handlers.CatalogNamesDisjoint | model_handlers.py:74-115 | no model name is in both categories |
| Handlers.BriefContent | model_handlers.py:153-155 | the brief answer names the model type and quotes `prompt[:100]` |
| Handlers.DetailedContent | model_handlers.py:156-180 | the detailed answer quotes the whole prompt, the two Yes/No lines and the model type |
| Handlers.SimulateApiCall | model_handlers.py:138-182 | the response carries the model type, the clock reading and the input type ("text" exactly when nothing is attached); brief mode quotes `prompt[:100]` and adds the summary; detailed mode has no summary |
| Handlers.ProcessWithModel | model_handlers.py:120-136 | "Model not found" exactly when no category has the name; otherwise the simulated answer for that model |
| Handlers.CollectInput | model_handlers.py:377-389 | the text is taken as typed when the mode has a text box; an upload the mode takes contributes exactly the description `process_file` gives it when that succeeds, and nothing when it fails; `Kept` is that description, or nothing |
| Handlers.Session.constructor | model_handlers.py:322-325 | a session starts with no requests and an empty history |
| Handlers.Session.Process | model_handlers.py:372-429 | the request fails exactly when no category lists the model, and then with "Model not found"; only an answer increments the counter by one and appends one entry; existing entries are kept; the text is sent unstripped; each upload the mode takes appears with its `process_file` description exactly when it processed without error |
| Handlers.Session.ShownHistory | model_handlers.py:434-440 | at most the last five requests, newest first, each numbered by its request count |

## Left out

- JSON file I/O: each file is a whole dictionary field of the store, and only
  the load-as-empty rule for a missing file or one not parsable as JSON is
  modelled. The
  initial file creation, the directory creation and failures when writing are
  left out.
- Auth.LoadOrEmpty: a file whose bytes are not valid UTF-8 raises
  `UnicodeDecodeError`, which `_load_*` does not catch, so loading fails. A
  file whose top-level JSON value is not an object loads as that value. The
  model's files are either absent, unparsable or a parsed dictionary, so it
  covers neither case.
- SHA-256, `secrets.token_hex`, `uuid.uuid4` and `datetime.now`: these are
  parameters. The model does not address entropy, uniqueness of ids or
  monotonic time.
- Auth.UserAuth.RegisterUser: the two separate `datetime.now()` readings of
  the record are taken as the one reading `now`.
- Auth.SatisfactionRate: the float percentage is a ratio of whole numbers.
  The `:.1f` rounding of the display is not modelled.
- Concurrency: the store has no locking, so a lost update between two sessions
  cannot be expressed in a sequential model.
- The Streamlit user interface is not modelled. That covers:
  - the CSS;
  - page routing and the session flags;
  - the login and registration form checks made before the store is called,
    such as the password confirmation;
  - the feedback buttons' display;
  - the sidebar sliders, whose temperature and token values never reach the
    model.
- The `temperature` entry of each model configuration: it is a float that the
  core never reads.
- Files.ProcessFile: the image and spreadsheet extractors (PIL, base64,
  pandas) are not modelled, so these kinds always succeed. This includes the
  spreadsheet's own "Error reading Excel file: " failure.
- Files.ProcessFile: the regular-expression extraction of Python function
  names is not modelled.
- Files.ProcessFile: a processing failure is modelled only when the bytes are
  not valid UTF-8. Its message omits the text of the exception.
- Text.Words: the contracts fix the number of words (Text.WordsCount), that
  each is a non-empty run free of whitespace, and their concatenation. Where each word
  ends is pinned down only for text whose words are joined by single spaces
  (Text.WordsOfJoin), not for every input.
- Auth.WrongPasswordFails: a salted digest alone cannot reject every wrong
  password, so the lemma assumes SHA-256 has no collisions.
  Auth.VerifyAgainstHashed states the exact condition without that
  assumption.
- Seqs.Last: `n` must be positive. Python's `s[-0:]` is all of `s`, and every
  caller passes 5, 10 or 20.
- Text.Lower: `lower()` folds ASCII letters only. Other Unicode case mappings
  are not modelled.
- Text.IsSpace: Python's `isspace` set is written out. Unicode database
  versions are not modelled.
- Feedback entries always have all four keys, as the feedback buttons build
  them. A hand-edited entry with a missing `response_id` or `feedback` key is
  not modelled.
- Users are `User` records with all five fields. A hand-edited user without a
  `password` key, which the source reads as `""`, is not modelled.
- App.ProcessWithModel: the API key is accepted and ignored, as in the
  source.
- Handlers.ProcessWithModel: the API key is accepted and ignored, as in the
  source.
- A real call to a provider's endpoint is not modelled; neither copy of the
  source makes one.
- config.py is not part of this model. It only reads environment variables and
  defines constants the core does not use.
- The FileProcessor of model_handlers.py is textually identical to the one in
  app.py and is modelled once, by `Files`.
