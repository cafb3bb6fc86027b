# Life planner core, modelled in Dafny

This project models the core of lifeplanner-obsidian, a plugin that keeps a
personal life plan as Markdown notes in an Obsidian vault. The plan covers
goals on seven levels, tasks, an inbox, issues on a kanban board, weekly
plans, a weekly shared note, exercise sheets, table sections and simple text
sections. Each note is read by a line scanner and written by a serializer.
The services list, add, update and delete records through those codecs.
The views reorder goals, place memos and issues, and collect what the
screen holds.

The model has one module per source file:

- Codecs and services are functions from document text to results and new
  document text. Each source loop is also a method, proved equal to its
  function.
- `Storage.Vault` is a class over a file map and a folder set. It stands for
  the vault.
- The goal reordering of the goals view works in place on an array.
- The table and list editors and the weekly plan screen are classes whose
  fields their methods update.
- `Text` holds the JavaScript string operations the sources rely on: trim,
  split, join, the line patterns, and decimal numbers.
- `Dates` holds day numbers and weekdays. `Sorting` holds the engine's
  stable sort.

The main results:

- Each codec has a round trip: reading what was written gives the records
  back, as the reader sees them.
- The services keep their invariants and do exactly the updates the source
  does.
- A goal move changes nothing beyond the moved goal's parent and the orders
  of the two groups involved. The refused moves are exactly the ones the
  source refuses.
- The weekly plan screen writes nothing when a save would not change the
  text.

## Model

| member | source | states |
|---|---|---|
| Text.Trim | src/services/markdown_tags.ts:8 | `trim()`: no white space is left at either end, and the result is no longer than the input |
| Text.TrimKeepsFirst | src/services/markdown_tags.ts:8 | leading white space is dropped and the first visible character starts the result |
| Text.TrimChars | src/services/markdown_tags.ts:8 | trimming invents no character |
| Text.TrimSingleLine | src/services/markdown_tags.ts:8 | trimming a one-line string leaves one line |
| Text.Split | src/services/tasks_service.ts:45 | `split` with a one-character separator never gives an empty list |
| Text.SplitJoin | src/services/tasks_service.ts:45 | splitting joined parts gives the parts back, when no part holds the separator: the basis of every round trip |
| Text.JoinSplit | src/services/tasks_service.ts:45 | joining the pieces of a split gives the string back |
| Text.Lower | src/services/markdown_tags.ts:16 | `toLowerCase` on ASCII letters: same length, every character lowered |
| Text.HeadingGroup | src/services/weekly_plan_io.ts:156 | the group `^##\s+(.+)$` / `^###\s+(.+)$` captures comes from a line starting with the hashes and is one line |
| Text.BulletGroup | src/services/weekly_plan_io.ts:133 | the group `^\-\s*(.+)$` captures comes from a line starting with `-` and is one line |
| Text.NatToString | src/services/tasks_service.ts:62 | `String(n)`: a non-empty run of digits |
| Text.NatToStringInjective | src/services/tasks_service.ts:62 | different numbers are written differently, so positional ids are distinct |
| Text.ParseIntOfString | src/services/goals_service.ts:103-210 | `parseInt` reads a decimal integer back as itself |
| Text.ParseNumberOfString | src/services/inbox_service.ts:145-151 | `Number` reads a decimal integer back as itself |
| Text.Pad2Value | src/storage/path_resolver.ts:32-33 | `padStart(2, "0")` of a number below 100 is two digits that read back as the number |
| Text.StrLessTotal | src/ui/goals_view.ts:420-424 | the title comparison orders any two different titles one way |
| Text.StrLessTransitive | src/ui/goals_view.ts:420-424 | the title comparison is transitive |
| Text.StrLessAsymmetric | src/ui/goals_view.ts:420-424 | the title comparison never orders two titles both ways |
| Dates.Weekday | src/ui/weekly_plan_view.ts:1031-1040 | `getDay()` of a day number is in 0..6 |
| Dates.StartIndex | src/ui/weekly_plan_view.ts:1031-1040 | the week opens on Sunday (0) or Monday (1) |
| Dates.ComputeWeekStart | src/ui/weekly_plan_view.ts:1031-1040 | the week start lies on the start weekday, within the six days before `today + 7 * offset` |
| Dates.WeekStartUnique | src/services/inbox_triage.ts:91-101 | exactly one day of those seven has the start weekday: the week start is determined |
| Dates.MonthLength | src/ui/weekly_plan_view.ts:1049-1060 | every month has 28 to 31 days |
| Dates.MonthsFillYear | src/ui/weekly_plan_view.ts:1049-1060 | the twelve month lengths add up to the year's length |
| Dates.CivilOf | src/storage/path_resolver.ts:30-35 | the calendar date of a day number has a month in 1..12 and a day within its month |
| Dates.YearAndIndex | src/storage/path_resolver.ts:30-35 | a day number falls on a day within its year |
| Dates.MonthAndDay | src/storage/path_resolver.ts:30-35 | a day of the year falls in a month from the given one and on a day within that month |
| Dates.FirstOfMonth | src/ui/weekly_plan_view.ts:1049-1060 | `new Date(year, month, 1)`: at most 30 days before the given day |
| Sorting.Insert | src/services/goals_service.ts:212-260 | the inserted sequence is the old one plus one element, as a multiset |
| Sorting.Sort | src/ui/goals_view.ts:420-424 | the stable sort is a permutation of its input |
| Sorting.SortSorted | src/ui/goals_view.ts:420-424 | the sort's result is ordered by key |
| Sorting.InsertSorted | src/ui/goals_view.ts:420-424 | inserting into a sorted sequence keeps it sorted |
| Sorting.KeyLessTotal | src/ui/goals_view.ts:420-424 | the comparator (order, then title) is total; KeyLessAsymmetric and KeyLessTransitive complete the strict order |
| Sorting.KeyLessAsymmetric | src/ui/goals_view.ts:420-424 | the comparator never orders two goals both ways |
| Sorting.KeyLessTransitive | src/ui/goals_view.ts:420-424 | the comparator is transitive |
| MarkdownTags.CleanTags | src/services/markdown_tags.ts:8-15 | each raw tag trimmed and stripped of one leading `#`, position by position |
| MarkdownTags.NormalizeTags | src/services/markdown_tags.ts:1-24 | the loop with its `seen` set computes the normalised tags, and no two of them share a lower-cased key |
| MarkdownTags.NormalizedDistinct | src/services/markdown_tags.ts:16-21 | kept tags are non-empty and pairwise distinct ignoring case, no more of them than raw tags |
| MarkdownTags.NormalizedCovers | src/services/markdown_tags.ts:7-22 | every non-empty cleaned tag is represented by its key, and every kept tag is a cleaned raw tag |
| MarkdownTags.NormalizedFirsts | src/services/markdown_tags.ts:7-22 | the kept tags are exactly the first cleaned tag of each key, in order |
| MarkdownTags.Frontmatter | src/services/markdown_tags.ts:31-35 | `---`, `tags:`, one `  - tag` line per tag, `---` and a blank line; nothing for no tags |
| MarkdownTags.PrependTagFrontmatter | src/services/markdown_tags.ts:26-37 | the front matter of the normalised tags, then the document's lines unchanged; the lines alone exactly when no tag survives |
| MarkdownTags.FrontmatterShape | src/services/markdown_tags.ts:31-35 | every front matter line is a fence, `tags:`, a tag entry or blank, so no reader takes it for content |
| MarkdownTags.DocumentSplit | src/services/markdown_tags.ts:26-37 | a document written one line per entry splits back into its lines, front matter included |
| MarkdownTags.FrontmatterNoHeading | src/services/markdown_tags.ts:31-35 | no front matter line starts with `##`, so no section reader starts inside it |
| Paths.StripLeadingSlashes | src/storage/path_resolver.ts:38 | `replace(/^\/+/, "")`: only slashes removed, and no slash left at the start |
| Paths.StripTrailingSlashes | src/storage/path_resolver.ts:38 | `replace(/\/+$/, "")`: a prefix, only slashes removed, and no slash left at the end |
| Paths.NormalizeBaseDir | src/storage/path_resolver.ts:37-40 | the normalised folder neither starts nor ends with `/` |
| Paths.NormalizeBaseDirSlice | src/storage/path_resolver.ts:37-40 | the normalised folder is one contiguous piece of the setting |
| Paths.FileName | src/storage/path_resolver.ts:19 | `LifePlanner - <type>.md` holds no `/` |
| Paths.TypeName | src/storage/path_resolver.ts:3-15 | each note type's name is non-empty and holds no `/` or `.` |
| Paths.ResolvePath | src/storage/path_resolver.ts:17-21 | the path is never empty and never absolute |
| Paths.ResolvedSegments | src/storage/path_resolver.ts:17-21 | the path's segments are the folder's segments followed by the file name: the file sits directly in the folder |
| Paths.ResolveWeeklyPath | src/storage/path_resolver.ts:23-28 | the weekly path is never empty and never absolute |
| Paths.WeeklySegments | src/storage/path_resolver.ts:23-28 | the weekly path's segments are the folder's segments followed by `LifePlanner - Weekly - <date>.md` |
| Paths.FormatDateFields | src/storage/path_resolver.ts:30-35 | a formatted date splits on `-` into the year and two-digit month and day that read back as the date |
| Paths.FormatDateNoSlash | src/storage/path_resolver.ts:30-35 | a formatted date holds no `/` |
| Paths.FolderSegments | src/storage/path_resolver.ts:17-28 | a file joined to a folder has the folder's segments and then the file name |
| Storage.NormalizeNewlines | src/storage/markdown_storage.ts:25 | `replace(/\r\n?/g, "\n")`: no `\r` is left and the text never grows |
| Storage.NormalizeWithoutReturns | src/storage/markdown_storage.ts:25 | text without `\r` is stored unchanged |
| Storage.NormalizeIdempotent | src/storage/markdown_storage.ts:25 | normalising twice is normalising once |
| Storage.NormalizeCrLf | src/storage/markdown_storage.ts:25 | a `\r\n` becomes one `\n` |
| Storage.NormalizeLoneCr | src/storage/markdown_storage.ts:25 | a lone `\r` becomes one `\n` |
| Storage.Dirs | src/storage/markdown_storage.ts:35-52 | one visited folder path per segment |
| Storage.DirsShallowestFirst | src/storage/markdown_storage.ts:35-52 | every folder path visited extends the ones visited before it |
| Storage.CurExtends | src/storage/markdown_storage.ts:40-49 | the folder path built so far extends every earlier one |
| Storage.CurIsJoin | src/storage/markdown_storage.ts:40-49 | with no empty segment, the folder path built from the segments is the segments joined by `/` |
| Storage.NewFolders | src/storage/markdown_storage.ts:43-49 | every folder created is a visited path that was neither a folder nor a file |
| Storage.NewFoldersExact | src/storage/markdown_storage.ts:43-49 | exactly the missing folders are created, each once |
| Storage.Vault.constructor | src/storage/markdown_storage.ts:6-8 | the storage wraps the vault it is given: the given files and folders, unchanged |
| Storage.Vault.Read | src/storage/markdown_storage.ts:10-19 | an unsafe path reads as None; a missing file reads as ""; otherwise the file's text |
| Storage.Vault.EnsureFolder | src/storage/markdown_storage.ts:35-52 | files unchanged; exactly the missing parent folders are created, shallowest first |
| Storage.Vault.Visit | src/storage/markdown_storage.ts:43-49 | one visited folder: created unless it already exists as a folder or a file |
| Storage.Vault.Write | src/storage/markdown_storage.ts:21-33 | refused for an unsafe path; otherwise the file holds the normalised text, and the parent folders are made only for a new file |
| Storage.FileNameSafe | src/storage/markdown_storage.ts:55-66 | every planner file name holds no `..` and starts with `L`, never with `/` |
| Storage.BaseDirSafe | src/storage/markdown_storage.ts:55-66 | normalising the folder setting keeps it free of `..` and `\` |
| Storage.ResolvedSafe | src/storage/markdown_storage.ts:55-66 | every resolved planner path passes the storage's safety check |
| SimpleSection.Parse | src/services/simple_section_service.ts:43-60 | the loop computes the body: the lines after the first `#` line, joined and trimmed |
| SimpleSection.ScanKeeps | src/services/simple_section_service.ts:50-56 | once started, the reader keeps every line as it is |
| SimpleSection.NoHeadingEmpty | src/services/simple_section_service.ts:43-60 | a document with no `#` line has an empty body |
| SimpleSection.RoundTrip | src/services/simple_section_service.ts:30-60 | reading a written section gives its trimmed body back, or `-` for a blank body |
| SimpleSection.Load | src/services/simple_section_service.ts:17-24 | an empty document is seeded with an empty section and reads as ""; otherwise the body is parsed and nothing is written |
| TableSection.IsTableLineTrim | src/services/table_section_service.ts:74-93 | a table line is exactly one whose trimmed text starts with `\|` |
| TableSection.RowCellsShape | src/services/table_section_service.ts:74-93 | every cell read is trimmed and holds no `\|` |
| TableSection.CellLists | src/services/table_section_service.ts:85-90 | each table line is split into its own cells |
| TableSection.RowsOfShape | src/services/table_section_service.ts:85-91 | every row kept is non-empty, with trimmed cells free of `\|` |
| TableSection.ReadTable | src/services/table_section_service.ts:74-93 | the loop computes the rows; each row read is non-empty with trimmed cells free of `\|` |
| TableSection.Cells | src/services/table_section_service.ts:65 | one cell per column, a missing cell written empty |
| TableSection.LoadRows | src/services/table_section_service.ts:39-47 | an empty document is seeded with an empty table and reads no rows; otherwise the rows are parsed and nothing is written |
| TableSection.RowCellsOfRowLine | src/services/table_section_service.ts:54-71 | a written row line reads back as its cells |
| TableSection.TableLinesOfDocument | src/services/table_section_service.ts:54-93 | the table lines of a written document are the header, the separator and the data lines, front matter and title skipped |
| TableSection.DataCells | src/services/table_section_service.ts:54-93 | the data lines written read back as the written rows, each non-empty |
| TableSection.RoundTrip | src/services/table_section_service.ts:54-93 | parsing a serialised table gives back each row padded or cut to the column count |
| Tasks.MatchTask | src/services/tasks_service.ts:59 | a line matching `^- \[(.\| )\] \[(.+)\]\s*(.+)$` gives a non-empty one-line goal group |
| Tasks.LastGoalEndIsLast | src/services/tasks_service.ts:59 | the greedy `(.+)` goal group closes at the last `]` that can close it |
| Tasks.LastGoalEndSkips | src/services/tasks_service.ts:59 | with no `]` after position m, m closes the goal group |
| Tasks.NoGoalEnd | src/services/tasks_service.ts:59 | with no `]` past the first position, no goal group closes |
| Tasks.Classify | src/services/tasks_service.ts:49-60 | a line read as a task item has a non-empty one-line goal |
| Tasks.ReadTasks | src/services/tasks_service.ts:44-71 | the loop computes ParseTasks |
| Tasks.ParsedShape | src/services/tasks_service.ts:59-68 | each task read has id `<goal>-<index>`, a non-empty one-line goal, a trimmed title, and is never `doing` |
| Tasks.ListTasks | src/services/tasks_service.ts:17-23 | an empty or missing document holds no tasks |
| Tasks.TaskSection | src/services/tasks_service.ts:80-88 | one line per task, or the empty placeholder line |
| Tasks.WriteTasks | src/services/tasks_service.ts:73-92 | the loop computes the serialised document |
| Tasks.AddTask | src/services/tasks_service.ts:25-36 | a new `todo` task for the goal and title, appended to the listed tasks and written back |
| Tasks.MatchTaskLine | src/services/tasks_service.ts:59 | a written task line matches with its goal, its title and its check mark |
| Tasks.EmptyGoalNotRead | src/services/tasks_service.ts:59 | a task with an empty goal is written but never read back |
| Tasks.RoundTrip | src/services/tasks_service.ts:44-92 | parsing serialised plain tasks gives them back with positional ids and `doing` read as `todo` |
| Tasks.ReadBackAll | src/services/tasks_service.ts:44-92 | what a round trip gives: one task per task written |
| Tasks.ReadAll | src/services/tasks_service.ts:59-68 | one task per matched line |
| Tasks.ReadLine | src/services/tasks_service.ts:48-69 | one pass of the loop equals one scan step and keeps every task read |
| Tasks.AddTaskReadsBack | src/services/tasks_service.ts:25-36 | after addTask, listing gives the earlier tasks and then the new one |
| Inbox.FindMeta | src/services/inbox_service.ts:133-135 | the leftmost `[ts:…]` or `[dest:…]` token at or after a position |
| Inbox.ExtractFrom | src/services/inbox_service.ts:130-143 | the content left holds no token, stays trimmed and never grows |
| Inbox.ExtractLoop | src/services/inbox_service.ts:130-143 | the loop computes extractMetadata; the content left is trimmed and holds no token |
| Inbox.LineItem | src/services/inbox_service.ts:89 | `^- \[.\] (.+)$` captures a non-empty one-line group |
| Inbox.ReadItems | src/services/inbox_service.ts:85-105 | the loop computes ParseItems |
| Inbox.ParsedShape | src/services/inbox_service.ts:85-105 | each item read has id `inbox-<k>`, trimmed token-free content, a status that follows its destination, and no tags |
| Inbox.WriteItems | src/services/inbox_service.ts:107-128 | the loop computes the serialised document |
| Inbox.ExtractItem | src/services/inbox_service.ts:115-123 | removing the tokens of a written item gives its content, timestamp text and destination |
| Inbox.TimestampBack | src/services/inbox_service.ts:145-151 | the written timestamp reads back as the creation time |
| Inbox.RoundTrip | src/services/inbox_service.ts:85-128 | parsing serialised plain items gives them back with positional ids |
| Inbox.ReadBackAll | src/services/inbox_service.ts:85-128 | what a round trip gives: one item per item written |
| Inbox.ReadAll | src/services/inbox_service.ts:89-103 | one item per matched line |
| Inbox.Active | src/services/inbox_service.ts:23 | only untriaged items of the list, no more of them than before |
| Inbox.ActiveAll | src/services/inbox_service.ts:23 | a list of untriaged items is kept whole |
| Inbox.ActiveDrops | src/services/inbox_service.ts:23-26 | a triaged item is always dropped, so the list shrinks |
| Inbox.ActiveKeeps | src/services/inbox_service.ts:23 | every untriaged item is kept |
| Inbox.ListItems | src/services/inbox_service.ts:17-28 | an empty document lists nothing; otherwise the untriaged items, and a rewrite is always their serialisation |
| Inbox.ListItemsWrites | src/services/inbox_service.ts:23-26 | the document is rewritten exactly when it holds a triaged item |
| Inbox.AddItem | src/services/inbox_service.ts:30-42 | a new untriaged item with id `inbox-<now>`, appended to the listed items and saved |
| Inbox.FindIndex | src/services/inbox_service.ts:46 | the first position with the id, or None exactly when no item has it |
| Inbox.TriageList | src/services/inbox_service.ts:44-57 | None exactly for an unknown id; otherwise the first item with the id gets the destination and its status, and every other item is unchanged |
| Inbox.EditList | src/services/inbox_service.ts:59-71 | None exactly for an unknown id; otherwise the first item with the id gets the new content, and every other item is unchanged |
| Inbox.MarkTriaged | src/services/inbox_service.ts:44-57 | the list after triage is saved; with an unknown id only listItems' clean-up is written |
| Inbox.UpdateItem | src/services/inbox_service.ts:59-71 | the edited list is saved; with an unknown id only listItems' clean-up is written |
| Inbox.Without | src/services/inbox_service.ts:75 | no item with the id is left, and only listed items are kept |
| Inbox.WithoutKeeps | src/services/inbox_service.ts:75 | exactly the items with the id go; without such an item the list is unchanged |
| Inbox.DeleteItem | src/services/inbox_service.ts:73-77 | the listed items without the id, always written back |
| Inbox.ListAfterSave | src/services/inbox_service.ts:17-28 | listing saved untriaged items gives them back, renumbered, with no clean-up write |
| Inbox.AddItemReadsBack | src/services/inbox_service.ts:30-42 | after addItem, listing gives the earlier items and the new one, renumbered |
| Issues.FieldOf | src/services/issues_service.ts:112-136 | the first field marker the line starts with, or None when it starts with none |
| Issues.NonBlank | src/services/issues_service.ts:122-125 | the tags kept are non-empty and trimmed |
| Issues.FlushRecord | src/services/issues_service.ts:80-88 | flush: the open record, its body joined and trimmed, joins the issues read |
| Issues.Flush | src/services/issues_service.ts:80-88 | flushing closes the open record and keeps the status |
| Issues.StepRecord | src/services/issues_service.ts:89-137 | one pass of the loop: a status heading closes the record and sets the status, a title heading opens a record, fields and body lines fill it |
| Issues.ScanRecords | src/services/issues_service.ts:89-139 | the loop and the final flush compute the scan's records |
| Issues.ReadIssues | src/services/issues_service.ts:73-142 | the reader computes ParseIssues |
| Issues.GroupOf | src/services/issues_service.ts:37-43 | the issues of one status, from the input |
| Issues.Grouped | src/services/issues_service.ts:37-43 | the grouped issues are all issues of the input |
| Issues.GroupByStatus | src/services/issues_service.ts:37-43 | the grouping loop: the statuses in first-seen order, and for each its issues in input order |
| Issues.StatusesGroups | src/services/issues_service.ts:37-43 | every status written has at least one issue |
| Issues.StatusesDistinct | src/services/issues_service.ts:37-43 | a status is written at most once |
| Issues.StatusesCover | src/services/issues_service.ts:37-43 | every status of the input is written |
| Issues.WriteIssues | src/services/issues_service.ts:33-71 | the loop computes the serialised document |
| Issues.TagsReadBack | src/services/issues_service.ts:55-125 | a written `Tags:` line reads back as the tags |
| Issues.FinishPend | src/services/issues_service.ts:80-88 | a record's body lines, joined and trimmed, give the body back, or `-` for an empty one |
| Issues.RoundTrip | src/services/issues_service.ts:33-142 | parsing serialised plain issues gives them back grouped by status |
| Issues.ReadBackAll | src/services/issues_service.ts:33-142 | what a round trip gives: one issue per issue written |
| Issues.RegroupPermutation | src/services/issues_service.ts:37-43 | the regrouping loses, duplicates and invents no issue |
| Issues.ListIssues | src/services/issues_service.ts:17-26 | a missing or empty document is replaced by an empty one and lists nothing; otherwise it is parsed |
| Issues.ListAfterSeed | src/services/issues_service.ts:17-26 | the seeded document lists no issues and is not rewritten |
| Issues.ListAfterSave | src/services/issues_service.ts:17-31 | listing saved issues gives them back, regrouped by status |
| Goals.LevelName | src/services/goals_service.ts:6-14 | every level name is a non-empty trimmed single line |
| Goals.LevelIndex | src/services/goals_service.ts:6-14 | each level's position in LEVEL_ORDER |
| Goals.LevelNamed | src/services/goals_service.ts:114-117 | `LEVEL_ORDER.includes(name)` gives a level of that name |
| Goals.LevelNamedName | src/services/goals_service.ts:114-117 | exactly the names of levels are recognised |
| Goals.StripGoalSuffix | src/services/goals_service.ts:113 | one trailing 目標 removed: never longer |
| Goals.FieldOf | src/services/goals_service.ts:151-191 | the first field marker the line starts with, or None when it starts with none |
| Goals.LastTitled | src/services/goals_service.ts:198-206 | the id of the last goal with the title, as the title map keeps it, or None when none has it |
| Goals.ReadLines | src/services/goals_service.ts:103-195 | the first pass's loop computes the scan's goals and parent references |
| Goals.ReadLine | src/services/goals_service.ts:109-191 | one pass of the loop equals one scan step |
| Goals.ReadField | src/services/goals_service.ts:151-191 | one field line sets its field on the open goal and the pending reference |
| Goals.Flush | src/services/goals_service.ts:123-195 | flushing closes the open goal and keeps the level, references and draws |
| Goals.IndexGoals | src/services/goals_service.ts:196-199 | the id map holds exactly the ids read; the title map gives the last goal of each title |
| Goals.ResolveParents | src/services/goals_service.ts:196-208 | the second pass's loop computes Resolve |
| Goals.Resolve | src/services/goals_service.ts:196-208 | the second pass keeps every goal in place and changes only parents: a goal with a non-empty pending reference gets the goal of that id, else the last goal of that title, else none; the others are unchanged |
| Goals.ReadGoals | src/services/goals_service.ts:103-210 | parseGoals computes ParseGoals |
| Goals.LegacyRead | src/services/goals_service.ts:137-150 | a `- title` line under a level adds the goal `<level>-<title>` |
| Goals.PlaceholderSkipped | src/services/goals_service.ts:137-150 | the `- ` placeholder adds nothing |
| Goals.UnknownLevel | src/services/goals_service.ts:110-120 | a `##` heading naming no level turns goal recognition off |
| Goals.Disabled | src/services/goals_service.ts:110-150 | until the next level heading no goal is opened or closed and no id is drawn |
| Goals.ParentIdOrder | src/services/goals_service.ts:151-180 | `親:` and `ID:` lines may come in either order: the pending reference is keyed by the final id |
| Goals.ParsedActive | src/services/goals_service.ts:103-210 | every goal read back is active |
| Goals.ClassifyLevel | src/services/goals_service.ts:110-120 | a written level heading is read as that level |
| Goals.ClassifyUnknown | src/services/goals_service.ts:110-120 | a `## ` heading naming no level is read as no level |
| Goals.ClassifyHeading | src/services/goals_service.ts:121-136 | a `### ` heading opens a goal titled by it |
| Goals.ClassifyPlaceholders | src/services/goals_service.ts:137-150 | the `- ` placeholder is a legacy line titled `-`, and a blank line is body text |
| Goals.ReadBackAll | src/services/goals_service.ts:103-260 | what a round trip gives: one goal per goal written |
| Goals.AtLevel | src/services/goals_service.ts:216-220 | the goals of one level, from the input |
| Goals.ArrangedOver | src/services/goals_service.ts:216-258 | the writer's order holds only goals of the input |
| Goals.PushGoal | src/services/goals_service.ts:230-252 | the lines pushed for one goal |
| Goals.PushLevel | src/services/goals_service.ts:216-256 | one level block: heading, then its goals in order, or a blank line |
| Goals.WriteGoals | src/services/goals_service.ts:212-260 | the loop computes the serialised document |
| GoalsRoundTrip.ArrangedPermutation | src/services/goals_service.ts:216-224 | the written order is a permutation of the goals |
| GoalsRoundTrip.DistinctArranged | src/services/goals_service.ts:216-224 | goals with distinct ids are written with distinct ids |
| GoalsRoundTrip.RoundTrip | src/services/goals_service.ts:103-260 | parsing serialised plain goals with distinct ids gives them back in the written order, parents resolved |
| GoalsService.ListGoals | src/services/goals_service.ts:27-40 | an empty document is seeded and lists nothing; otherwise the parse, rewritten exactly when some goal has no `ID:` line |
| GoalsService.WrittenIdLines | src/services/goals_service.ts:35-36 | a written goals file has an `ID:` line per goal, so it is not rewritten |
| GoalsService.ListAfterSeed | src/services/goals_service.ts:27-40 | the seeded document lists no goals and is not rewritten |
| GoalsService.ListAfterSave | src/services/goals_service.ts:27-40 | listing saved plain goals gives them back, with no rewrite |
| GoalsService.SiblingOrdersSpec | src/services/goals_service.ts:50-52 | the collected orders are exactly the siblings' orders, a missing order counted as 0 |
| GoalsService.MaxOf | src/services/goals_service.ts:53 | `Math.max`: an element no smaller than any other |
| GoalsService.NextOrderSpec | src/services/goals_service.ts:53 | the new order is one more than the largest sibling order, or 1 without siblings |
| GoalsService.FreshGoalId | src/services/goals_service.ts:54-58 | the loop draws until an id is free: the first draw not taken |
| GoalsService.AddGoal | src/services/goals_service.ts:42-72 | the new active goal has a fresh id and the next sibling order; the listed goals plus it are saved |
| GoalsService.AddedFresh | src/services/goals_service.ts:42-72 | adding keeps the other goals and distinct ids |
| GoalsService.Apply | src/services/goals_service.ts:80 | `{ ...goal, ...update, id: goal.id }` keeps the id |
| GoalsService.UpdateList | src/services/goals_service.ts:76-82 | same length and ids; goals with another id unchanged |
| GoalsService.UpdateFields | src/services/goals_service.ts:76-82 | a goal with the id gets exactly the fields the patch sets and keeps the rest |
| GoalsService.UpdateIdempotent | src/services/goals_service.ts:74-83 | a patch applied twice is applied once; an empty patch changes nothing |
| GoalsService.UpdateGoal | src/services/goals_service.ts:74-83 | the patched list is always saved, even for an unknown id |
| GoalsService.DeleteList | src/services/goals_service.ts:86-93 | no goal with the id and no child of it is left |
| GoalsService.DeleteListSpec | src/services/goals_service.ts:86-93 | every other goal stays, unlinked only when a direct child; nothing appears |
| GoalsService.DeleteKeeps | src/services/goals_service.ts:86-93 | every goal without the id stays, unlinked from it |
| GoalsService.DeleteOnly | src/services/goals_service.ts:86-93 | every goal left is a goal without the id, unlinked from it |
| GoalsService.DeleteAbsent | src/services/goals_service.ts:86-93 | with no goal with the id and no child of it, nothing changes |
| GoalsService.DeleteGoal | src/services/goals_service.ts:85-95 | the cleaned list is always saved |
| GoalsView.IndexOfId | src/ui/goals_view.ts:425 | `findIndex`: the first position holding the id, or -1 when none does |
| GoalsView.FindGoal | src/ui/goals_view.ts:353-354 | `find`: a goal with the id, None exactly when none has it |
| GoalsView.LastGoal | src/ui/goals_view.ts:358 | the id map's lookup: a goal with the id, None exactly when none has it |
| GoalsView.LastIsFirst | src/ui/goals_view.ts:353-358 | with distinct ids the map lookup and `find` agree |
| GoalsView.WalkEnds | src/ui/goals_view.ts:359-373 | each exit of the walk decides the ancestor question correctly |
| GoalsView.IsDescendant | src/ui/goals_view.ts:359-373 | the walk answers true exactly when the ancestor is on the parent chain, cycles included |
| GoalsView.GroupOf | src/ui/goals_view.ts:408-412 | exactly the goals of the source's level under the parent, a sub-multiset of the list |
| GoalsView.InsertAt | src/ui/goals_view.ts:425-443 | the splice position is within the group |
| GoalsView.Working | src/ui/goals_view.ts:425-443 | the spliced working order is a permutation of the group |
| GoalsView.WorkingMembers | src/ui/goals_view.ts:419-443 | the working order holds exactly the group's members |
| GoalsView.OrdersMap | src/ui/goals_view.ts:444-447 | the keys are the working ids, each numbered within 1..n |
| GoalsView.OrdersAt | src/ui/goals_view.ts:444-447 | with distinct ids every goal gets its 1-based position |
| GoalsView.Renumber | src/ui/goals_view.ts:448-457 | only the order of group members changes |
| GoalsView.RenumberInPlace | src/ui/goals_view.ts:448-457 | the array loop writes Renumber into the array |
| GoalsView.Reordered | src/ui/goals_view.ts:418-458 | reorderGroup changes only the orders of the group's goals |
| GoalsView.ReorderGroup | src/ui/goals_view.ts:418-458 | reorderGroup renumbers the array in place as Reordered says |
| GoalsView.Relink | src/ui/goals_view.ts:414-416 | only the goals with the id change, and only their parent |
| GoalsView.Move | src/ui/goals_view.ts:345-476 | handleMove computes MoveResult: the goals to save, or None for a refused move |
| GoalsView.MoveRefused | src/ui/goals_view.ts:350-377 | a move onto itself, with an unknown goal, or onto a descendant writes nothing |
| GoalsView.MoveAccepted | src/ui/goals_view.ts:378-401 | an accepted move passed every check: the new parent is not the source and is broader than it |
| GoalsView.MoveParent | src/ui/goals_view.ts:378-401 | the source's new parent is the target when broader, else the target's parent |
| GoalsView.MoveFrame | src/ui/goals_view.ts:403-469 | only the source's parent changes, and only orders in the source's old and new groups |
| GoalsView.MoveNumbers | src/ui/goals_view.ts:460-469 | the new group is numbered 1..n in its working order |
| GoalsView.MoveOldNumbers | src/ui/goals_view.ts:418-462 | when the move changes the source's group, the old group is numbered 1..n in its own working order (the remaining old siblings, sorted; the moved goal is no longer among them): each member takes its position there, each position is taken, and no position holds the moved goal |
| GoalsView.MovePlacement | src/ui/goals_view.ts:425-443 | the source lands right after or right before a sibling target, else last |
| GoalsView.RenumberIds | src/ui/goals_view.ts:477-509 | `orders.has(goal.id)`: only the orders of the ids listed change |
| GoalsView.RenumberIdsAgree | src/ui/goals_view.ts:477-509 | with distinct ids renumbering by id agrees with reorderGroup's renumbering |
| GoalsView.MoveToRoot | src/ui/goals_view.ts:477-509 | None exactly for an unknown source |
| GoalsView.MoveToRootSpec | src/ui/goals_view.ts:477-509 | the source becomes a root, last of the root group; only the root group's orders change, numbered 1..n |
| GoalsView.TreeSorted | src/ui/goals_view.ts:584-594 | every list of the goal tree is sorted by order, missing order last, then title |
| GoalsView.TreePlacesOnce | src/ui/goals_view.ts:539-597 | every goal is placed exactly once: under its known parent, else among the roots |
| GoalsView.LevelsBelowSpec | src/ui/goals_view.ts:732-760 | the levels offered below a level are exactly the narrower ones, broadest first; nextLevel is the first |
| GoalTaskLinker.LinkTaskToGoal | src/services/goal_task_linker.ts:4-9 | a task given the goal's id, every other field as it was |
| GoalTaskLinker.LinkIdempotent | src/services/goal_task_linker.ts:4-9 | linking twice is linking once; a second goal overrides the first |
| GoalTaskLinker.TasksForGoal | src/services/goal_task_linker.ts:11-13 | only tasks with the goal's id, from the list |
| GoalTaskLinker.TasksForGoalCounts | src/services/goal_task_linker.ts:11-13 | a task is listed as often as it occurs with the goal's id |
| GoalTaskLinker.TasksForGoalAppend | src/services/goal_task_linker.ts:11-13 | filtering distributes over concatenation |
| GoalTaskLinker.TasksForGoalInOrder | src/services/goal_task_linker.ts:11-13 | listed tasks keep their order |
| GoalTaskLinker.LinkedIsListed | src/services/goal_task_linker.ts:4-13 | a linked task is listed for its goal |
| Routines.AppendRows | src/services/weekly_plan_io.ts:25-28 | pushes one row per routine |
| Routines.AppendRoutineTable | src/services/weekly_plan_io.ts:18-29 | pushes the header, the separator and the rows, or the placeholder row |
| Routines.ReadRow | src/services/weekly_plan_io.ts:139-154 | a routine is read only from a `\|` line with a title other than the header's, with checks for the six days |
| Routines.KeptDays | src/services/weekly_plan_io.ts:146-149 | only the six routine days can be checked after a row is read |
| Routines.KeptKept | src/services/weekly_plan_io.ts:146-149 | keeping is idempotent |
| Routines.RowReadBack | src/services/weekly_plan_io.ts:25-154 | a written routine with a plain title reads back as its title and its six day checks |
| Routines.HeaderRowSkipped | src/services/weekly_plan_io.ts:142 | the header row is not a routine |
| Routines.SeparatorRowSkipped | src/services/weekly_plan_io.ts:142 | the separator row is not a routine |
| Routines.BlankRowSkipped | src/services/weekly_plan_io.ts:143-144 | the placeholder row reads as no routine |
| WeeklyPlan.AppendBullets | src/services/weekly_plan_io.ts:62-78 | a bullet per entry, or the empty bullet |
| WeeklyPlan.AppendBlock | src/services/weekly_plan_io.ts:62-78 | a `### ` heading, its bullets and a blank line appended |
| WeeklyPlan.WriteFront | src/services/weekly_plan_io.ts:8-60 | the front matter, title, routine table, roles and actions pushed |
| WeeklyPlan.AppendBack | src/services/weekly_plan_io.ts:62-93 | the bullet blocks, reflection and memos pushed |
| WeeklyPlan.AppendRoles | src/services/weekly_plan_io.ts:31-48 | one heading per role with its focus tasks, or the default role |
| WeeklyPlan.AppendActions | src/services/weekly_plan_io.ts:50-58 | one checkbox line per action item, or the empty one |
| WeeklyPlan.AppendMemos | src/services/weekly_plan_io.ts:80-93 | one memo block per weekday, in week order |
| WeeklyPlan.WritePlan | src/services/weekly_plan_io.ts:8-95 | the line pushes compute the serialised plan |
| WeeklyPlan.ActionOf | src/services/weekly_plan_io.ts:170-180 | `^\-\s*\[( \|x)\]\s*(.+)$`: a line read as an action starts with `-` and has a non-empty title |
| WeeklyPlan.DayOf | src/services/weekly_plan_io.ts:196-199 | a line read as a day heading starts with `###` and names one weekday character |
| WeeklyPlan.ReadLine | src/services/weekly_plan_io.ts:121-221 | one line of the reader equals one scan step |
| WeeklyPlan.ReadPlan | src/services/weekly_plan_io.ts:97-223 | the loop computes Parse |
| WeeklyPlan.ParseMemoKeys | src/services/weekly_plan_io.ts:97-223 | the memos read always have exactly the seven weekdays as keys |
| WeeklyPlan.RoundTrip | src/services/weekly_plan_io.ts:8-223 | parsing a serialised plain plan gives it back as the reader sees it |
| WeeklyPlan.WeeklyEntries | src/services/weekly_plan_io.ts:225-227 | one entry per task, its title, in order |
| WeeklyPlan.AddGoal | src/services/weekly_plan_io.ts:157-168 | a goal line under a role heading is appended to the last role's goals; the other roles and the role's name are unchanged |
| WeeklyShared.Put | src/services/weekly_shared_io.ts:93 | a month is either updated in place, keeping the length, or appended last |
| WeeklyShared.PutLookup | src/services/weekly_shared_io.ts:93 | after assigning, the month reads the new theme and every other month what it read before |
| WeeklyShared.PutNew | src/services/weekly_shared_io.ts:93 | a new month is appended |
| WeeklyShared.PutDistinct | src/services/weekly_shared_io.ts:93 | no month is ever held twice |
| WeeklyShared.PutMonths | src/services/weekly_shared_io.ts:93 | no month appears that was not recorded or assigned |
| WeeklyShared.WriteShared | src/services/weekly_shared_io.ts:7-46 | the line pushes compute the serialised note |
| WeeklyShared.AppendRoles | src/services/weekly_shared_io.ts:24-34 | one line per role appended |
| WeeklyShared.AppendThemes | src/services/weekly_shared_io.ts:35-45 | one theme line per month appended |
| WeeklyShared.ThemeOf | src/services/weekly_shared_io.ts:91-93 | `^\-\s*([0-9]{4}\-[0-9]{2})\s*:\s*(.+)$`: a line read as a theme starts with `-` and has a `YYYY-MM` month key |
| WeeklyShared.ReadShared | src/services/weekly_shared_io.ts:48-100 | the loop computes Parse |
| WeeklyShared.PlaceholderSetsNothing | src/services/weekly_shared_io.ts:39-93 | the empty theme bullet sets no month |
| WeeklyShared.ThemeOverwrites | src/services/weekly_shared_io.ts:91-93 | a later line for a month replaces its theme in place |
| WeeklyShared.RoundTrip | src/services/weekly_shared_io.ts:7-100 | parsing a serialised plain note gives it back as the reader sees it |
| Exercises.ReadSections | src/services/exercises_service.ts:40-66 | the loop and the final flush compute ParseSections |
| Exercises.WriteSections | src/services/exercises_service.ts:68-88 | the loop computes the serialised document |
| Exercises.SectionMap | src/services/exercises_service.ts:90-99 | the keys are exactly the defined titles |
| Exercises.BuildSectionMap | src/services/exercises_service.ts:90-99 | the loop computes SectionMap |
| Exercises.SectionMapAt | src/services/exercises_service.ts:90-99 | a title's last definition decides its entry |
| Exercises.KeptLines | src/services/exercises_service.ts:108-114 | never more lines than the body has |
| Exercises.KeptLinesSound | src/services/exercises_service.ts:108-114 | a kept line is a trimmed body line and not a question |
| Exercises.KeptLinesComplete | src/services/exercises_service.ts:108-114 | every trimmed line that is not a question is kept |
| Exercises.NormalizeStep | src/services/exercises_service.ts:105-118 | one definition changes at most its own title's entry |
| Exercises.NormalizeSections | src/services/exercises_service.ts:101-120 | the loop computes Normalized, keeping the keys |
| Exercises.Normalized | src/services/exercises_service.ts:101-120 | normalising keeps the parsed titles |
| Exercises.NormalizedAppend | src/services/exercises_service.ts:101-120 | normalising with more definitions continues from the map the first ones left |
| Exercises.NormalizedUntouched | src/services/exercises_service.ts:101-120 | a title without questions keeps its body |
| Exercises.NormalizedCleans | src/services/exercises_service.ts:101-120 | a title with questions has its non-empty body cleaned |
| Exercises.Load | src/services/exercises_service.ts:16-29 | the keys are the defined titles; an empty document is seeded with the defaults, otherwise the normalised parse is mapped and nothing is written |
| Exercises.LoadEmpty | src/services/exercises_service.ts:16-29 | with nothing read, each title gets its default body |
| Exercises.RoundTrip | src/services/exercises_service.ts:40-88 | parsing serialised sections gives back each title's written body |
| ExercisesView.ContentDefs | src/ui/exercises_view.ts:185-198 | the table sections left out, the others kept as definitions |
| ExercisesView.ContentDefsComplete | src/ui/exercises_view.ts:185-198 | every section kept as text has its definition there |
| ExercisesView.FindLegacy | src/ui/exercises_view.ts:463 | `find`: a question the value starts with, then a colon; None exactly when there is none |
| ExercisesView.FindLegacyFirst | src/ui/exercises_view.ts:463 | the earliest matching question is found |
| ExercisesView.ReadListLine | src/ui/exercises_view.ts:452-477 | an item read is non-empty, not `-`, and trimmed; a legacy answer is trimmed |
| ExercisesView.Outcomes | src/ui/exercises_view.ts:452-477 | one outcome per line |
| ExercisesView.ListStep | src/ui/exercises_view.ts:452-477 | one line keeps the items non-empty and trimmed and sets the legacy flag for a legacy line |
| ExercisesView.Collect | src/ui/exercises_view.ts:445-479 | the collected items are non-empty and trimmed |
| ExercisesView.CollectLegacy | src/ui/exercises_view.ts:445-479 | the flag is set exactly when some outcome is legacy |
| ExercisesView.ParseListItems | src/ui/exercises_view.ts:445-479 | every item is non-empty and trimmed |
| ExercisesView.UsedLegacyIff | src/ui/exercises_view.ts:445-479 | the legacy flag is set exactly when some line reads as legacy |
| ExercisesView.ReadListItems | src/ui/exercises_view.ts:445-479 | the loop computes ParseListItems |
| ExercisesView.ReadListLineInto | src/ui/exercises_view.ts:452-477 | one pass of the loop equals one step |
| ExercisesView.CollapseBreaks | src/ui/exercises_view.ts:483 | `replace(/\s*\n\s*/g, " ")` leaves no line break |
| ExercisesView.SpaceRun | src/ui/exercises_view.ts:483 | `\s*`: the longest run of white space at the start |
| ExercisesView.CleanItem | src/ui/exercises_view.ts:483 | a cleaned item is one trimmed line |
| ExercisesView.ListLines | src/ui/exercises_view.ts:481-486 | at most one line per item, each of them a single line |
| ExercisesView.WrittenLineRead | src/ui/exercises_view.ts:452-486 | a written `- item` line reads back as the item, the `-` item as nothing |
| ExercisesView.ListLinesRead | src/ui/exercises_view.ts:445-486 | the lines written read back as the cleaned items |
| ExercisesView.ReadBackItems | src/ui/exercises_view.ts:445-486 | no more items come back than were written |
| ExercisesView.ListRoundTrip | src/ui/exercises_view.ts:445-486 | parsing a built list body gives back the cleaned non-blank items, with no legacy flag |
| ExercisesView.ReadBackEmpty | src/ui/exercises_view.ts:445-486 | an empty body reads back as no items |
| ExercisesView.ListEditor.constructor | src/ui/exercises_view.ts:393 | the parsed items, or one empty item |
| ExercisesView.ListEditor.Edit | src/ui/exercises_view.ts:417-421 | typing replaces that item alone |
| ExercisesView.ListEditor.Delete | src/ui/exercises_view.ts:423-430 | the item is removed, leaving one empty item rather than none |
| ExercisesView.ListEditor.Add | src/ui/exercises_view.ts:434-437 | one empty item appended |
| ExercisesView.ReadAnswerMap | src/ui/exercises_view.ts:217-235 | the loop computes the answer map |
| ExercisesView.AnswerLines | src/ui/exercises_view.ts:249-253 | one `- q: answer` line per question |
| ExercisesView.AnswerLineRead | src/ui/exercises_view.ts:222-234 | a written answer line reads back as its question and answer |
| ExercisesView.AnswersRoundTrip | src/ui/exercises_view.ts:216-254 | the answer map read from a saved body gives each question its answer |
| TableSectionView.WriteCell | src/ui/table_section_view.ts:184-190 | `row[col] = value`: that cell takes the value, every other cell keeps its value, holes read as "" |
| TableSectionView.SetCell | src/ui/table_section_view.ts:184-190 | the row (new if missing) gets the cell; every other row is unchanged |
| TableSectionView.CheckboxValue | src/ui/table_section_view.ts:147-151 | a ticked checkbox stores a value shown ticked, and an unticked one a value shown unticked |
| TableSectionView.SelectShown | src/ui/table_section_view.ts:139-143 | a value is shown as is; with no value the first option is shown |
| TableSectionView.Shown | src/ui/table_section_view.ts:109-112 | loaded rows are shown as they are; an empty table shows one empty row |
| TableSectionView.ReopenShowsSaved | src/ui/table_section_view.ts:109-112 | reopening a saved table shows its rows padded to the columns |
| TableSectionView.TableEditor.constructor | src/ui/table_section_view.ts:23-37 | an editor with no rows for its table |
| TableSectionView.TableEditor.Load | src/ui/table_section_view.ts:109-112 | the rows shown and the seed written for an empty document |
| TableSectionView.TableEditor.SetCellAt | src/ui/table_section_view.ts:184-195 | the cell changes and the table is saved |
| TableSectionView.TableEditor.AddRow | src/ui/table_section_view.ts:72-76 | one empty row appended, and saved |
| TableSectionView.TableEditor.RemoveRow | src/ui/table_section_view.ts:196-203 | the row removed, one empty row left rather than none, and saved |
| IssuesView.Columns | src/ui/issues_view.ts:87-89 | the configured columns, or `Backlog` alone: never empty |
| IssuesView.ColumnOf | src/ui/issues_view.ts:97 | an issue is shown in its status's column, or the first column |
| IssuesView.InColumn | src/ui/issues_view.ts:92-102 | only issues shown in that column |
| IssuesView.PlaceIssue | src/ui/issues_view.ts:96-101 | appending the next issue to its column's list gives the lists by column for one more issue |
| IssuesView.PushIssue | src/ui/issues_view.ts:96-101 | one pass of the loop: the issue is appended to its status's list when that is a column, else to the first column's; the columns are unchanged |
| IssuesView.InColumnCounts | src/ui/issues_view.ts:92-102 | each issue is shown in exactly one column, as often as it is listed |
| IssuesView.GroupIssues | src/ui/issues_view.ts:92-102 | the grouping loop gives each column exactly its issues, in order |
| IssuesView.MoveIssue | src/ui/issues_view.ts:202-210 | the issues with the id take the status; nothing else changes |
| IssuesView.MovedIntoColumn | src/ui/issues_view.ts:202-210 | a moved issue is shown in the column it was dropped on; moving it again changes nothing |
| IssuesView.Without | src/ui/issues_view.ts:216 | no issue with the id is left |
| IssuesView.WithoutCounts | src/ui/issues_view.ts:216 | every other issue is kept as often as it was listed |
| IssuesView.WithoutInOrder | src/ui/issues_view.ts:216 | the kept issues stay in order |
| IssuesView.DeleteIssue | src/ui/issues_view.ts:211-221 | every issue with the deleted id removed |
| IssuesView.Upsert | src/ui/issues_view.ts:228-231 | any issue with the saved id removed and the saved one appended |
| IssuesView.UpsertCounts | src/ui/issues_view.ts:228-231 | the saved issue is held once, every other issue as before |
| IssuesView.NewIssue | src/ui/issues_view.ts:130-141 | a new issue with no title, in the column clicked, with no body and no optional field set |
| IssuesView.OrUnset | src/ui/issues_view.ts:336-340 | `value \|\| undefined`: unset exactly for an empty value |
| IssuesView.SaveForm | src/ui/issues_view.ts:325-342 | nothing for a blank title; otherwise the same id, the trimmed title, the trimmed body, the chosen status or the first column, the goal, due date and priority each unset exactly when empty, and the tags exactly the non-empty trimmed comma-separated pieces, unset when there is none |
| IssuesView.SavedFieldsKept | src/ui/issues_view.ts:325-342 | the fields of a saved issue, written out and read back, come back as saved: none is set but empty |
| InboxTriage.EmptyPlan | src/services/inbox_triage.ts:64-89 | the empty weekly plan: no entries, seven slots, an empty memo list per weekday |
| InboxTriage.WithAction | src/services/inbox_triage.ts:43-50 | the plan with the item appended as an unchecked action |
| InboxTriage.WeeklyTarget | src/services/inbox_triage.ts:43-50 | the weekly note of the week holding today: a relative path |
| InboxTriage.ToWeeklyReadsBack | src/services/inbox_triage.ts:43-50 | after toWeekly (ToWeekly: the plan CurrentPlan reads, the stored week or EmptyPlan for an empty document, with the item appended by WithAction, serialised) the week's plan reads back with the item as its last action |
| InboxTriage.EmptyPlanPlain | src/services/inbox_triage.ts:64-89 | a new week's plan is plain, so it round-trips |
| InboxTriage.TriageIssueId | src/services/inbox_triage.ts:55 | the new issue's id starts with `issue-`, followed by the clock reading and the random draw |
| InboxTriage.TriageIssue | src/services/inbox_triage.ts:54-59 | the new issue: that id, titled by the item, status `Backlog`, empty body, no other field |
| InboxTriage.ToIssue | src/services/inbox_triage.ts:52-62 | the listed issues plus one `Backlog` issue titled by the item |
| InboxTriage.TriageIssuePlain | src/services/inbox_triage.ts:52-62 | the new issue is one that round-trips |
| InboxTriage.ToIssueReadsBack | src/services/inbox_triage.ts:52-62 | the saved issues read back regrouped, the new issue with body `-` |
| TemplateService.WeekStartDateAgrees | src/services/template_service.ts:63-69 | the template's week start is the weekly plan's: on the start weekday, within the last six days |
| TemplateService.Quarter | src/services/template_service.ts:48-51 | the quarter holding the month |
| TemplateService.DatedSuffixFields | src/services/template_service.ts:38-43 | a dated or daily suffix is today's year, month and day |
| TemplateService.WeeklySuffixFields | src/services/template_service.ts:54-57 | a weekly suffix is the week start's date |
| TemplateService.MonthlySuffixFields | src/services/template_service.ts:44-45 | a monthly suffix is the year and two-digit month |
| TemplateService.QuarterlySuffix | src/services/template_service.ts:48-51 | a quarterly suffix ends in `-Q` and the quarter of today's month |
| TemplateService.FiveYearSuffixFields | src/services/template_service.ts:52-53 | a five-year suffix is this year and the year four years on |
| TemplateService.TargetBase | src/services/template_service.ts:24-27 | the target lies under `LifePlanner/` |
| TemplateService.BeforeMd | src/services/template_service.ts:95 | `split(".md")[0]`: a prefix up to the first `.md`, or the whole path |
| TemplateService.NumberedTarget | src/services/template_service.ts:91-101 | numbered candidates of a target are `<base> (k).md` |
| TemplateService.NumberedInjective | src/services/template_service.ts:91-101 | different numbers give different paths |
| TemplateService.UniquePath | src/services/template_service.ts:91-101 | a free path: the path itself when free, else the first free `(k)` from 2 |
| TemplateService.ResolveTemplatePath | src/services/template_service.ts:71-82 | the first of the two template places that exists; none exactly when neither exists |
| TemplateService.CreateFromTemplate | src/services/template_service.ts:21-30 | fails exactly without a template; otherwise the new file's path is free, the target itself when free |
| WeeklyPlanView.DayOrder | src/ui/weekly_plan_view.ts:1099-1103 | seven names, the k-th naming the k-th day of the week |
| WeeklyPlanView.DayOrderPermutes | src/ui/weekly_plan_view.ts:1099-1103 | either order holds each of the seven day names once |
| WeeklyPlanView.DayOrderNamesWeekdays | src/ui/weekly_plan_view.ts:1099-1103 | the k-th name names the weekday of the k-th day of any week |
| WeeklyPlanView.WeekOfMonth | src/ui/weekly_plan_view.ts:1049-1060 | a number in 1..6 counting weeks from the week holding the month's first day |
| WeeklyPlanView.MonthKeyFields | src/ui/weekly_plan_view.ts:1062-1066 | the month key is the year and two-digit month |
| WeeklyPlanView.FullDateFields | src/ui/weekly_plan_view.ts:1068-1073 | the full date is year, two-digit month and day, split by `/` |
| WeeklyPlanView.MemoShownOnItsDay | src/ui/weekly_plan_view.ts:613-630 | a memo is shown under a day exactly when it was created on that day of the week |
| WeeklyPlanView.MemoDay | src/ui/weekly_plan_view.ts:613-630 | a memo has a day exactly when it was created within the week, and the day holds its time |
| WeeklyPlanView.MemosOn | src/ui/weekly_plan_view.ts:613-630 | only inbox items created on that day of the week |
| WeeklyPlanView.PlaceMemo | src/ui/weekly_plan_view.ts:620-630 | one pass of the loop keeps the lists by day and their keys |
| WeeklyPlanView.BucketMemos | src/ui/weekly_plan_view.ts:613-630 | the memo lists by day name: each day gets exactly its memos, in inbox order |
| WeeklyPlanView.FillBuckets | src/ui/weekly_plan_view.ts:620-630 | the placing loop keeps the lists by day |
| WeeklyPlanView.InsertMemoRow | src/ui/weekly_plan_view.ts:669-685 | the row inserted before the first later row |
| WeeklyPlanView.InsertPosition | src/ui/weekly_plan_view.ts:669-685 | the insertion point: rows before it are no later, the row at it is later |
| WeeklyPlanView.InsertKeepsOrder | src/ui/weekly_plan_view.ts:669-685 | rows in time order stay in time order, with the new row added |
| WeeklyPlanView.TrimmedValues | src/ui/weekly_plan_view.ts:864-896 | only non-empty trimmed entries |
| WeeklyPlanView.TrimmedValuesExact | src/ui/weekly_plan_view.ts:864-896 | an entry is kept exactly when some input trims to it and it is non-empty |
| WeeklyPlanView.CollectRoutines | src/ui/weekly_plan_view.ts:864-896 | routine rows kept with non-empty trimmed titles |
| WeeklyPlanView.CollectRoles | src/ui/weekly_plan_view.ts:864-896 | role sections kept with non-empty trimmed roles |
| WeeklyPlanView.CollectActions | src/ui/weekly_plan_view.ts:864-896 | action rows kept with non-empty trimmed titles |
| WeeklyPlanView.BuildEmptyPlan | src/ui/weekly_plan_view.ts:840-857 | no entries, seven empty slots and an empty memo list per weekday |
| WeeklyPlanView.Base | src/ui/weekly_plan_view.ts:859-863 | the loaded plan, given slots when it had none, or the empty plan: never without slots |
| WeeklyPlanView.FindSlot | src/ui/weekly_plan_view.ts:897-903 | `find`: the first slot of the day, or none exactly when no slot has it |
| WeeklyPlanView.LabelSlots | src/ui/weekly_plan_view.ts:897-903 | each day's first slot gets its date label |
| WeeklyPlanView.LabelNextDay | src/ui/weekly_plan_view.ts:897-903 | one pass of the labelling loop labels the next day's first slot, or nothing without one |
| WeeklyPlanView.LabelledTwice | src/ui/weekly_plan_view.ts:897-903 | labelling twice is labelling once |
| WeeklyPlanView.WeeklyPlanEditor.constructor | src/ui/weekly_plan_view.ts:41-42 | nothing saved or loaded yet |
| WeeklyPlanView.WeeklyPlanEditor.SavePlan | src/ui/weekly_plan_view.ts:859-915 | writes the collected plan exactly when its text differs from the last saved text; a skipped save still labels the loaded plan's slots |
| WeeklyPlanView.SaveAgainWritesNothing | src/ui/weekly_plan_view.ts:905-912 | saving the same screen again collects the same plan, so writes nothing |
| WeeklyPlanView.SaveReadsBack | src/ui/weekly_plan_view.ts:859-915 | what a save writes reads back as the collected plan |

## Left out

- I/O: the Obsidian API, the DOM, rendering, notices, timers and event wiring are left out. Each service works on the document text it read and returns the text it would write. `Storage.Vault` stands for the vault.
- The clock and randomness are parameters: `now`, `createdAt`, and the `draw`/`next` id oracles.
- Time of day, time zones and daylight saving are left out. Dates are whole day numbers, and weekOfMonth's millisecond division is modelled on whole days.
- Text.Lower: lowers ASCII letters only, so `"Ä"` and `"ä"` count as two tags here but as one in the source.
- Inbox.LineItem: the regex `.` is modelled per character, while the engine counts UTF-16 code units. This only matters for characters outside the Basic Multilingual Plane.
- Tasks.MatchTask: the same UTF-16 simplification for `.` at src/services/tasks_service.ts:59.
- Text.ParseNumber: reads decimal integers only. `Number()` also accepts `1.5`, `1e3` and `0x10`, which here give None.
- Text.StrLess: compares code points in order, standing for `localeCompare`, whose collation depends on the locale.
- Issues.FreshId: one clock reading `now` serves every heading of one parse. The source calls `Date.now()` per heading (src/services/issues_service.ts:102), which may give equal values in one parse anyway.
- GoalsService.AddGoal: requires that the id oracle eventually offers an id not taken. The source's `while` loop (src/services/goals_service.ts:56-58) relies on the clock and `Math.random` for that.
- Issues.RoundTrip: covers single-line bodies only. The source also round-trips multi-line bodies such as `"a\nb"` (src/services/issues_service.ts:78-88,137).
- Issues.RoundTrip, Tasks.RoundTrip, Inbox.RoundTrip, GoalsRoundTrip.RoundTrip, WeeklyPlan.RoundTrip, WeeklyShared.RoundTrip, Exercises.RoundTrip and TableSection.RoundTrip: each holds for plain values only. Plain means one-line, trimmed, and free of the markers the reader keys on; each module's `Plain…` predicate states the condition.
- TableSectionView.TableEditor.SetCellAt: requires `rowIndex <= |rows|`. JavaScript array holes are modelled as empty cells, which read and write the same way.
- WeeklyPlan.WeeklyEntries: states only the map from tasks to titles. Nothing further is promised about it.
- loadPlanForWeek's legacy path (src/ui/weekly_plan_view.ts:765-803) is not modelled. Neither is seeding from the shared note or saveShared (src/ui/weekly_plan_view.ts:806-838). The view uses shared routine actions as strings, while src/services/weekly_shared_io.ts:18-20 reads `action.checks` and `action.title`.
- The routine table has six day columns, while the memo section has seven days. This is modelled as written.
- WeeklyPlanView.WeeklyPlanEditor.SavePlan: slot aliasing is modelled only as the update to the loaded plan's slots.
- Form inputs are strings, and an absent input is `""`. The dialog's select value when the status is not an option is taken as given.
- IssuesView: object-prototype keys such as `constructor` used as a status are not modelled. The branch `if (!grouped[status])` (src/ui/issues_view.ts:98) cannot be taken and is omitted.
- TemplateService: the default branch of buildSuffix cannot be reached and is omitted. ensureFolder and safeRead (src/services/template_service.ts:84-89,103) are vault I/O.
- The simple section service ignores the default tags and writes no front matter. The model does the same.
- Numbers are unbounded integers, while the source's are JavaScript doubles. Rounding above 2^53 is not modelled, and neither is the exponent form `String` uses from 1e21. For example, the order 10^21 is written as `順序: 1e+21` (src/services/goals_service.ts:246) and `parseInt` reads it back as 1 (line 184). So GoalsRoundTrip.RoundTrip, the order comparison (lines 225-227) and Inbox.RoundTrip's `ts:` token (src/services/inbox_service.ts:117) hold in the source only for safe integers.
- TemplateService.CreateFromTemplate: models the path chosen for the copy only. Reading the template's text and writing it to that path (src/services/template_service.ts:23-28) is vault I/O and is not modelled.
- Storage.Vault.Write: creating a new file always succeeds in the model. Obsidian's `create` fails when the path is already a folder or a parent is a file (src/storage/markdown_storage.ts:31-32,44-49), and that failure is not modelled.
- GoalsService.GoalPatch: title, level and status are `Option` values, so a patch cannot carry an explicit `undefined` for them. The spread `{ ...goal, ...update }` (src/services/goals_service.ts:80) would copy such an `undefined` over the goal's value.
- GoalsView.BuildGoalTree: the nodes' `parentLevel` and `parentTitle` (src/ui/goals_view.ts:574-575) are not carried in `Tree`. They are the level and title of the goal a node is listed under in `children`.
