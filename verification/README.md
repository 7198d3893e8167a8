# tips, modelled in Dafny

`tips` is a small command-line note manager. Each note is a *tip*: metadata (subject,
numeric id, tags, optional file extension), plus a content file named by a uuid. The
collection of tips is a YAML database. Each invocation loads the database, runs one
command and stores the database again. The commands modelled here are:

- **add** writes a starter template plus content to a temporary document and opens it
  in an editor. It aborts when the template part is left unchanged. Otherwise it splits
  the document at the separator line, writes the content under a new uuid, numbers the
  tip with `next_id` and appends it.
- **update** writes an existing tip out as a document (serialized tip, separator,
  content), lets it be edited and splits it again. It rewrites the content file only
  when the content changed. It takes over subject and tags when the deserialized tip
  differs from the stored one.
- **remove** finds the first tip whose id, printed in decimal, equals the argument. It
  asks for confirmation, then deletes the content file and the tip.
- **list** shows every tip, or the tips a regular expression matches in their subject,
  content, tags or all three, in collection order.

## How the model is built

- **Disk.** `Storage.Disk` is a class holding the database (`db: seq<Tip>`) and every
  other file as a map from path to text. The helpers `read_to_string`, `write_to_file`
  and `remove_file` are its methods. Reading or removing a missing path panics; writing always
  succeeds (see Left out).
- **Commands.** Each command is an imperative method on the disk: `AddCommand.AddTip`,
  `UpdateCommand.Update`, `RemoveCommand.Remove`, `ListCommand.List`. Each is proved
  equal to a pure function (`AddEffect`, `UpdateEffect`, `RemoveEffect`, `ListEffect`).
  For add, update and remove that function gives the exit (completed, `process::exit`
  with a message, or a panic with its cause) and the database and files left behind.
  `ListEffect` gives the exit and the rows presented; list changes nothing on disk.
  The lemmas are stated about these functions.
- **Outside the core.** These become parameters:
  - the editor: a function from the text it is given to the text it leaves;
  - serde_yaml: `Codec.Yaml`, a serializer plus parsers that may fail;
  - the regex crate: `Query.RegexEngine`, with "compiles" and "finds";
  - the uuid that `Uuid::new_v4` returns;
  - the typed confirmation answer;
  - the configured data directory and temporary file (`Storage.Config`).
- **Standard library.** The pieces of Rust's standard library the core relies on are
  written out in module `Text`:
  - `str::find`;
  - `str::trim` with Unicode `White_Space`;
  - the decimal `Display` of an integer;
  - `usize::from_str` for a 64-bit `usize`;
  - the `{:?}` rendering of a string.
- **Metadata fields.** Metadata has exactly the fields src/metadata.rs declares. The
  code also mentions `created` and `last_updated` timestamps: src/add.rs:146-155 assigns
  `md.created`, and src/init.rs:131-132 sets both to `None`, though the struct declares
  neither. There is no timestamp in this model, and the update command sets none.

Quirks of the code that the model keeps:

- **`next_id`** is one more than the id of the *last* tip, whatever the largest id is,
  and it panics on an empty collection (`Collection.NextId`, `Collection.NextIdMayDuplicate`).
  The invariant "ids strictly increase in collection order" is kept by add, update and
  remove. Under that invariant the two agree (`Collection.NextIdAboveAll`).
- **The abort check of add** slices the first `|template|` characters before comparing.
  A complete, well-formed document that is shorter than the template therefore panics
  (`AddCommand.ShortDocumentPanics`).
- **Update** compares the *whole* deserialized tip with the stored one, including id,
  extension and uuid. It copies only subject and tags when they differ, which equals
  copying them unconditionally (`UpdateCommand.MergeCopiesSubjectAndTags`).
- **Tip equality** compares all metadata fields and the uuid (`TipRecord.TipEq`).
- **Ordering of writes.** The content file is written before the step that can fail
  next. On an empty database, add panics after leaving an orphan content file
  (`AddCommand.EmptyDatabaseLeavesOrphan`). Update panics on a bad metadata block after
  the content was already replaced (`UpdateCommand.BadMetadataKeepsNewContent`).
- **Id arguments.** Remove compares the argument with the decimal text of each id, so
  `07` never selects a tip. Update parses the argument as a number, so `07` finds tip 7
  (`RemoveCommand.ZeroPaddedId`).

## Model

| member | source | states |
|---|---|---|
| Text.FindFirst | src/add.rs:132-137 | The separator search returns the first index where the pattern occurs (no occurrence starts earlier), or nothing exactly when it occurs nowhere. |
| Text.DecimalInjective | src/remove.rs:43 | Two ids have the same decimal text exactly when they are the same id. |
| Text.ParseUsize | src/update.rs:12-17 | A parsed id is below 2^64 and is the value of one or more digits, after an optional '+'. |
| Text.ParseUsizeAccepts | src/update.rs:12-17 | Conversely, an optional '+' followed by one or more digits whose value is below 2^64 parses to that value, leading zeros included. |
| Text.ParseDecimal | src/update.rs:12-17 | Parsing the decimal text of any id below 2^64 gives that id back. |
| Text.Trim | src/remove.rs:71 | The trimmed answer is a slice of the answer with only whitespace before and after it, and it neither starts nor ends with whitespace. |
| Text.TrimPadded | src/remove.rs:71 | Conversely, a text that does not start or end with whitespace, surrounded by whitespace, trims back to itself. |
| Text.Quoted | src/query.rs:70 | The `{:?}` form of a tag is quoted at both ends, at least two longer, and exactly the tag in quotes when nothing in it needs escaping. |
| Meta.MetadataEq | src/metadata.rs:28-35 | Metadata equality holds iff subject, id, tags (in order) and extension are all equal, so it is reflexive and symmetric. |
| Meta.Display | src/metadata.rs:37-48 | The displayed metadata begins with `subject: `, the subject, a newline and `id: `. |
| Meta.DisplayNoneAsZero | src/metadata.rs:39-42 | A missing id is displayed exactly as id 0. |
| Meta.DisplayIdLine | src/metadata.rs:37-48 | After the head, the display prints digits that parse back to the id (a missing id as 0), then a newline. |
| Meta.DisplayDeterminesId | src/metadata.rs:39-47 | For one subject, equal display texts imply equal printed ids (missing counts as 0). |
| TipRecord.TemplateShape | src/tip.rs:8-22 | The template is its metadata part (25 characters), then the separator, then a newline, and the separator occurs in it once only, at index 25. |
| TipRecord.NewlineBlocksSeparator | src/tip.rs:21 | No occurrence of the separator covers a newline. |
| TipRecord.TipEq | src/tip.rs:56-60 | Tip equality holds iff metadata and content uuid are both equal. |
| TipRecord.DataPathInjective | src/tip.rs:125-128 | Within one data directory, two content paths are equal iff the uuids are. |
| TipRecord.IdCellText | src/tip.rs:79-88 | The id cell panics iff the id is missing; otherwise it is all digits whose value is the id. |
| TipRecord.TagsCellText | src/tip.rs:102-111 | The loop inserting each tag and a space at the front yields TagsLine. |
| TipRecord.TagsLineReversed | src/tip.rs:107-111 | The tag line is the tags in reverse order, each followed by one space; no tags give the empty text. |
| TipRecord.HeaderCells | src/tip.rs:73-76 | A summary row fails iff the id is missing; otherwise it is the id's digits, the subject unchanged and the reversed, spaced tags. |
| TipRecord.HeaderRow | src/tip.rs:74-122 | Building the id cell, subject cell and tags cell (with its loop) equals HeaderCells. |
| Storage.ReadFile | src/helpers.rs:62-70 | Reading succeeds iff the path exists, with its text; otherwise it panics naming the path. |
| Storage.Disk.Read | src/helpers.rs:62-70 | The read method returns what ReadFile specifies and changes nothing. |
| Storage.Disk.Write | src/helpers.rs:50-59 | Writing sets the path's text, creating the file if needed, and leaves every other file and the database alone. |
| Storage.Disk.Remove | src/helpers.rs:10-19 | Removal panics iff the path is missing; afterwards the path is gone and nothing else changed. |
| Storage.RunEditor | src/add.rs:82 | After the editor runs, the file holds the edit of its previous text, and nothing else changed. |
| Codec.Split | src/update.rs:101-120 | Splitting fails only without a separator, or with nothing after the first one. On success the document is metadata, separator, one more character, content, and no separator starts inside the metadata. |
| Codec.SplitUnique | src/add.rs:132-142 | Any decomposition into metadata, separator, one character and content with no separator starting in the metadata is the split's result. |
| Codec.SplitStarter | src/add.rs:102-142 | Splitting an unedited starter document gives the template's metadata part and exactly the content put in, for every content. |
| Codec.SplitDocument | src/tip.rs:132-162 | Round trip with `to_file`: a serialized tip without a separator splits back into itself plus a newline and exactly the content. |
| Codec.ToFile | src/tip.rs:132-162 | `to_file` panics iff the content file is missing; otherwise it writes serialized tip, newline, separator, newline, content to the target file and changes nothing else. |
| Collection.ScanFrom | src/tips.rs:45-52 | The first tip that is id-less or matching ends the scan. A match gives its index, with every earlier tip passed over. No match means every tip was passed over. An id-less tip reached before any match panics. |
| Collection.Tips.GetTipIndex | src/tips.rs:45-52 | The enumerate loop with early return computes exactly the scan by id. |
| Collection.Tips.Push | src/tips.rs:100 | Pushing appends exactly the tip at the end. |
| Collection.Tips.RemoveAt | src/remove.rs:28 | `Vec::remove` drops exactly the element at the index, keeping the others in order. |
| Collection.Tips.Store | src/tips.rs:32-42 | Storing replaces the database by the collection and changes no other file. |
| Collection.Load | src/tips.rs:69-80 | Loading gives a fresh collection equal to the database. |
| Collection.NextId | src/tips.rs:83-95 | `next_id` panics iff the collection is empty or its last tip has no id; otherwise it is the last tip's id plus one. |
| Collection.Add | src/tips.rs:98-102 | Adding leaves the old database with the tip appended, and no file changed. |
| Collection.IncreasingIdsAreUnique | src/tips.rs:83-102 | Strictly increasing ids are unique. |
| Collection.NextIdAboveAll | src/tips.rs:83-95 | Under the invariant, `next_id` succeeds on a non-empty collection and is above every id in it. |
| Collection.AppendNextIdKeepsIncreasing | src/tips.rs:83-102 | Appending a tip numbered `next_id` keeps ids strictly increasing and unique. |
| Collection.RemoveKeepsIncreasing | src/remove.rs:28 | Dropping any one tip keeps ids strictly increasing. |
| Collection.NextIdMayDuplicate | src/tips.rs:86-94 | With ids 3 then 2, `next_id` is 3, an id already in use. |
| Collection.IndexIsTheOnlyMatch | src/tips.rs:45-52 | Under the invariant, the lookup by id never panics. It finds a tip iff some tip has the id, and the found index is the only tip with that id. |
| AddCommand.TemplateUnchanged | src/add.rs:89 | The abort test panics iff the edited text is shorter than the template; otherwise it holds iff the text starts with the template. |
| AddCommand.GetTipData | src/add.rs:118-124 | The content is the file's text (a missing file panics), the piped text, or exactly `<replace me>`. |
| AddCommand.WriteTemplate | src/add.rs:102-111 | The temporary document becomes exactly template plus content; a missing input file panics and writes nothing. |
| AddCommand.Create | src/add.rs:127-165 | Create fails iff the split or the metadata parse fails, then writing nothing. Otherwise it writes the content under the uuid and returns the parsed metadata with that uuid. |
| AddCommand.AddEffect | src/add.rs:78-98 | What `add_tip` leaves behind: only a completed add changes the database, by appending one tip with the new uuid; the only `process::exit` is the abort with status 1. |
| AddCommand.AddTip | src/add.rs:78-98 | The add pipeline's database, files and exit equal AddEffect. |
| AddCommand.AddAbortsIff | src/add.rs:88-92 | Add aborts with status 1 iff the content was read and the edited text starts with the whole template. An abort changes nothing but removing the temporary document. |
| AddCommand.ContentOnlyEditAborts | src/add.rs:88-92 | Editing only below the separator, or not at all, aborts and creates no tip. |
| AddCommand.SplitShortDocument | src/add.rs:132-142 | A particular 54-character document is well formed: it splits into a metadata block and the content `hi`. |
| AddCommand.ShortDocumentPanics | src/add.rs:89 | That well-formed document, shorter than the template, makes add panic on the slice instead of adding a tip. |
| AddCommand.AddCompleted | src/add.rs:94-97 | A completed add appends exactly one tip at the end, earlier tips unchanged. The new tip has the parsed subject, tags and extension, the last id plus one, and the new uuid. Its content is stored under that uuid, and the only other change is the removed temporary document. |
| AddCommand.AddKeepsIdsIncreasing | src/add.rs:95-97 | Add keeps the ids strictly increasing and unique. |
| AddCommand.EmptyDatabaseLeavesOrphan | src/add.rs:95-96 | On an empty database a valid add panics in `next_id` after its content file was written. |
| AddCommand.AddKeepsOtherFiles | src/add.rs:78-98 | With a fresh uuid, every file but the temporary document keeps its text. |
| UpdateCommand.TipWithId | src/update.rs:41-58 | The lookup gives the first index holding the id. It panics with "not found" when every tip has another id. It panics with a missing id when an id-less tip comes before any tip with the id, every tip before it having another id. |
| UpdateCommand.GetTipWithId | src/update.rs:41-58 | The method built on `get_tip_index` computes exactly that lookup. |
| UpdateCommand.MergeCopiesSubjectAndTags | src/update.rs:85-90 | The merged tip has the edited subject and tags, and the stored id, extension and uuid. |
| UpdateCommand.ExtractMetadataData | src/update.rs:101-120 | Cutting the string in place equals Codec.Split. |
| UpdateCommand.UpdateData | src/update.rs:61-70 | A missing content file panics. Otherwise the file ends up holding the new content, and it is left untouched when the content is unchanged. |
| UpdateCommand.UpdateMetadata | src/update.rs:74-91 | A block that does not parse as a tip panics and changes nothing. Otherwise only the slot is replaced by the merged tip. |
| UpdateCommand.UpdateEffect | src/update.rs:9-38 | What `update` leaves behind: the database keeps its length, it changes only when the update completes, and update never calls `process::exit`. |
| UpdateCommand.EditEffect | src/update.rs:32-37 | The end of `update` after the edit: every tip but slot i is kept, slot i keeps its id and uuid, and there is no `process::exit`. |
| UpdateCommand.Update | src/update.rs:9-38 | The update pipeline's database, files and exit equal UpdateEffect. |
| UpdateCommand.ApplyEdit | src/update.rs:32-37 | Split, content update, metadata update and store together equal EditEffect. |
| UpdateCommand.UpdateChangesOnlyThatTip | src/update.rs:20-37 | A completed update keeps length and order and every other tip. The updated tip keeps its id (the parsed argument), extension and uuid. |
| UpdateCommand.EditCompleted | src/update.rs:32-37 | A completed edit parsed the block and merged it into that slot only. |
| UpdateCommand.UpdateKeepsIdsIncreasing | src/update.rs:85-90 | Update keeps the ids strictly increasing. |
| UpdateCommand.UneditedUpdateIsNoOp | src/update.rs:24-37 | Saving without edits changes nothing but removing the temporary document, when serde reads back what it wrote. |
| UpdateCommand.BadMetadataKeepsNewContent | src/update.rs:34-37 | A bad metadata block panics with the database unchanged, but the content file already holds the new content. |
| RemoveCommand.TrimmedToLetter | src/remove.rs:71-72 | An answer that trims to one character is that character padded by whitespace. |
| RemoveCommand.LetterTrimsTo | src/remove.rs:71-72 | A non-space character padded by whitespace trims to itself. |
| RemoveCommand.AcceptedIff | src/remove.rs:68-82 | The answer confirms iff it is `y` or `Y` with only whitespace around it. |
| RemoveCommand.ConfirmDecision | src/remove.rs:39-87 | Removal is confirmed iff the scan by decimal text finds a tip and the answer is accepted. The target is the first tip with that text and its content path. It is declined iff the scan finds a tip and the answer is refused. There is no match iff the scan finds none. It crashes iff the scan fails, and then the cause is an id-less tip that comes first. |
| RemoveCommand.ConfirmRemoval | src/remove.rs:39-87 | The enumerate loop with early returns computes exactly that decision. |
| RemoveCommand.RemoveEffect | src/remove.rs:19-35 | What `remove` leaves behind: a completed removal drops one tip and one file; any other outcome leaves database and files as they were, and every `process::exit` has status 1. |
| RemoveCommand.Remove | src/remove.rs:19-35 | The remove pipeline's database, files and exit equal RemoveEffect. |
| RemoveCommand.OnlyConfirmedRemovalChanges | src/remove.rs:26-33 | Anything but completion leaves database and files unchanged. "Aborted by user" iff a tip matched and the answer was refused. "No tip with id" iff no tip matched. |
| RemoveCommand.RemoveCompleted | src/remove.rs:26-29 | A completed removal confirmed the answer and deletes the content file of the first tip whose decimal id is the argument. It drops that one tip, and the others keep their order and ids. |
| RemoveCommand.DropAt | src/remove.rs:28 | Dropping index i keeps the tips before it and shifts the later ones down by one. |
| RemoveCommand.RemoveKeepsIdsIncreasing | src/remove.rs:26-29 | Remove keeps the ids strictly increasing. |
| RemoveCommand.PaddedIdNeverMatches | src/remove.rs:43 | An argument with a leading zero or a sign is the decimal text of no id. |
| RemoveCommand.NeverMatchedScan | src/remove.rs:42-86 | A key that no id matches never selects a tip. |
| RemoveCommand.ZeroPaddedId | src/remove.rs:42-43 | `07` parses as 7 for update, yet remove leaves every database unchanged with it. |
| Query.TagHit | src/query.rs:68-75 | The tag loop hits iff the pattern is found in the quoted form of some tag. |
| Query.Find | src/query.rs:44-93 | A hit is the very tip searched, and the only panic is a missing content file. |
| Query.Search | src/query.rs:22-41 | A pattern that does not compile panics. Otherwise the result is that of find: no tip, or the tip given. |
| Query.SingleComponents | src/query.rs:52-75 | Subject matches iff the pattern is found in the raw subject. Data panics iff the content file is missing, otherwise matches iff found in the content. Tag matches iff found in some quoted tag. |
| Query.NoTagsNoTagHit | src/query.rs:68-75 | A tip without tags never matches a tag search. |
| Query.AllIsDisjunction | src/query.rs:78-91 | `All` matches iff subject or content or tags match. It panics iff the subject misses and the content file is missing. |
| Query.TagSearchSeesQuotes | src/query.rs:70 | The tag `a` is searched as the text `"a"`, quotes included. |
| ListCommand.ComponentOf | src/list.rs:26-32 | `subject`, `tag`, `data` and `all` map to the Subject, Tag, Data and All components, and they are the only parts accepted; any other panics. |
| ListCommand.AllHeaders | src/tips.rs:57-66 | The summary fails iff some tip has no id; otherwise it has one row per tip, in order. |
| ListCommand.SummaryEffect | src/tips.rs:57-66 | `Tips::summary` either completes with one row per tip or panics with no rows; it never calls `process::exit`. |
| ListCommand.Summary | src/tips.rs:57-66 | The summary loop equals SummaryEffect. |
| ListCommand.MatchPattern | src/list.rs:19-51 | `match_pattern` equals ListEffect for any pattern but `all`: a panic, exit 1 with the not-found message when nothing matches, or the rows. |
| ListCommand.CollectRows | src/list.rs:36-41 | The match loop equals Matches: the rows pushed, or it stops at the first panic of a search or a row. |
| ListCommand.ListEffect | src/list.rs:5-51 | What `list` presents: rows only when it completes, and a pattern other than `all` completes only with at least one row; the only `process::exit` is status 1 with the not-found message, for a pattern other than `all`. |
| ListCommand.List | src/list.rs:5-15 | `list` equals ListEffect for every pattern and part. |
| ListCommand.AllHeadersFailure | src/tips.rs:61-63 | A panic on a prefix of the collection is the summary's panic. |
| ListCommand.MatchesFailure | src/list.rs:36-41 | A panic on a prefix of the collection is the match loop's panic. |
| ListCommand.MatchesAreSelected | src/list.rs:36-41 | The rows pushed are exactly the summary rows of the tips the search returns, in collection order. |
| ListCommand.SelectedMembers | src/list.rs:36-41 | A tip is selected iff it is in the collection and the search returns it. |
| ListCommand.SelectedAppend | src/list.rs:36-41 | Selection distributes over concatenation, so collection order is kept. |
| ListCommand.SelectedSnoc | src/list.rs:36-41 | A collection one tip longer selects that tip exactly when its search returns it. |
| ListCommand.ListAllIsEverything | src/list.rs:11 | The pattern `all` lists one row per tip, in order, whatever the part, and completes even when empty. |
| ListCommand.ListPatternIsSelection | src/list.rs:36-50 | Any other pattern lists the rows of the selected tips in order, and exits with status 1 and "No t(ips) found" iff none is selected. |
| ListCommand.EmptyDatabaseNeverSearches | src/list.rs:36-47 | On an empty database the listing exits with status 1, even for a pattern that does not compile. |

## Left out

- src/main.rs (the clap command line and dispatch) is not part of this model. Commands take their arguments directly. A missing `pattern` for list cannot happen, because clap supplies `all` as a default.
- src/config.rs and src/statics.rs (loading the configuration, the global) are not part of this model. The data directory and temporary file are parameters.
- src/init.rs is not part of this model. It seeds the database with a single tip with id 1, which keeps `next_id` defined; the model does not assume this.
- src/show.rs, src/present.rs and src/open.rs are not part of this model: presentation with prettytable and syntect, terminal handling, and spawning the editor. The editor is a pure function of the text, and a failure to spawn it is not modelled.
- The `Display` of `Tip` and `Tips` (src/tip.rs:50-54, src/tips.rs:17-24) appears only in panic messages, and panic message texts are left out; a panic carries only its cause. This includes `remove_file` naming the temporary file whatever path failed.
- Printing the found tip's summary and the prompt before reading the answer in remove, and failures to flush stdout or read stdin, are left out. The answer is a parameter.
- Reading stdin for `add -` (src/add.rs:36-53) is left out. The piped text is a parameter of `Input.Stdin`.
- Timestamps: `chrono` and the `created` assignment at src/add.rs:155 are left out, because the declared Metadata has no such field.
- serde_yaml is abstract. Serialization failures in `to_file` and `store`, and a database that does not deserialize on load, are not modelled.
- The regex crate is abstract, given only as "compiles" and "finds".
- The uuid is a parameter. Its freshness is assumed only where a lemma says so (`AddKeepsOtherFiles`).
- Cell styles, alignment and spans of the summary rows are left out; a row is its three texts.
- The `get_mut` failure branch at src/update.rs:48-53 is unreachable after a successful lookup and is not modelled.
- `next_id` on a last id of 2^64 - 1 would overflow `usize`; ids are unbounded here.
- AddCommand.TemplateUnchanged: counts characters, not UTF-8 bytes. A text of fewer than 57 characters but at least 57 bytes panics here, but in the source it may reach the comparison, which then fails. Both versions agree on whether the text starts with the template.
- Rust's panics on slicing a string at a byte that is not a character boundary are left out. Strings are sequences of characters, and the separator and template are ASCII.
- Text.Escape: escapes quote, backslash and the ASCII control characters as `char::escape_debug` does, but not the non-ASCII characters that `escape_debug` also escapes (grapheme extenders and unprintable code points).
- Text.ParseUsize: models `usize::from_str` for a 64-bit target only.
- Storage.Disk.Write: never fails. `write_to_file` (src/helpers.rs:50-59) panics when `create_file` (src/helpers.rs:24-31) cannot create the file, e.g. in a missing data directory, or when the write fails. That panic is not modelled for writing the template, the new tip's content, the updated content, `Tip::to_file` or the database.
- Collection.Tips.Store: never fails, since it writes through `Storage.Disk.Write`; a database file that cannot be created or written panics in the source (src/tips.rs:32-42).
- Collection.Load: always loads. A missing or unreadable database file panics in `read_to_string` (src/helpers.rs:62-70) in the source; here the database is always present.
