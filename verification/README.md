# Version report: classifier, aggregation and table

This project models the core of a small reporting tool. The tool fetches an
inventory of servers and reports, for one environment, which version of each
service is deployed, in four columns:

- FE Service
- BE internal-API
- BE Standard API
- BE Gateway

The repository has two copies of the tool:

- `version.py` takes the environment key (`dev`, `dev2`, `sit`, `sit2`) as
  an argument.
- `get_version.py` always reads the `sit` environment.

The two copies share the same server-name classifier and the same
aggregation and table loop. The model covers both copies.

- **Text** (`text.dfy`) holds the string primitives the code relies on:
  - whitespace splitting, as `str.split()` with no argument, over Python's
    whitespace set;
  - splitting on one separator, as `str.split(sep)`;
  - joining, as `sep.join`;
  - `lower`, `upper` and `capitalize`.
- **Classifier** (`classifier.dfy`) holds `classify_server`:
  - `ClassifyParts` is the rule cascade on the token sequence, branch for
    branch.
  - `ClassifyServer` applies it to a raw name.
  - One lemma per branch group states that group's rules on the name.
  - `ClassifiableIff` says exactly which names make the code fault:
    - a name with no token, where `parts[0]` faults;
    - a two-token name led by `ixt`, where `parts[2]` faults.
- **RuleTable** (`rule_table.dfy`) is an independent, declarative statement
  of the same rules:
  - the lower-cased first token selects a plan: how the display name is
    formed, plus an ordered list of patterns over the later tokens;
  - the first matching pattern gives the category;
  - `CascadeIsTable` proves the cascade and the table agree on every name
    the code accepts.
- **Aggregation** (`aggregation.dfy`) holds the loop over the records:
  - `Aggregate` is the loop itself, an imperative method;
  - it is proved equal to `Summarize`, a left fold of per-record entries;
  - lemmas about the fold state the promised properties: the service list
    has no duplicates, is in first-seen order and holds exactly the
    classified names; the last write wins; unclassified records are
    ignored; every cell belongs to a listed service.
- **Table** (`table.dfy`) holds the table-building loops:
  - `BuildTable` and `BuildRow` are proved equal to `Render`;
  - lemmas read the text back by cutting it at newlines and at `|`. The
    result is the header, the separator, then one line per service in list
    order, each holding the service and its four cells in column order. The
    image step (`markdown_to_image`) parses the table in this way.
- **Reports** (`reports.dfy`) holds the two entry points, from the fetched
  records to the table text, plus end-to-end scenario lemmas.

The header and separator lines are assembled from their cells with `Join`.
They are equal to the fixed lines at `version.py:141-142`, and the doc
comments show them in full.

## Model

| member | source | states |
|---|---|---|
| Text.Split | version.py:18 | every piece of a whitespace split is a non-empty run of non-whitespace characters |
| Text.SplitSkipsBlank | version.py:18 | whitespace of any kind and length before the text gives no piece and changes nothing |
| Text.SplitTokenThen | version.py:18 | a token followed by whitespace or by nothing is the first piece, and the rest is split on its own |
| Text.SplitInterleaved | version.py:18 | tokens separated by non-empty whitespace runs of any kind, with optional whitespace at either end, split back into exactly those tokens |
| Text.SplitEmptyIffBlank | version.py:18-19 | a name splits into no tokens exactly when it is empty or all whitespace |
| Text.SplitJoin | version.py:18 | tokens joined by single spaces split back into exactly those tokens |
| Text.SplitKeepsOut | version.py:18 | a character that is not in the name is in none of its tokens |
| Text.Join | version.py:148 | the joined text holds no character that is in neither the separator nor a piece |
| Text.SplitOn | version.py:81-83 | cutting at a separator gives at least one piece, and no piece holds the separator |
| Text.JoinSplitOn | version.py:81-83 | joining the pieces with the separator gives the text back |
| Text.SplitOnJoin | version.py:81-83 | pieces free of a one-character separator, joined with it, cut back into exactly those pieces |
| Text.Lower | version.py:19 | same length, and no upper-case letter is left |
| Text.Upper | version.py:25-45 | same length, and no lower-case letter is left |
| Text.Capitalize | version.py:55-67 | same length; the first character is not a lower-case letter and no upper-case letter follows |
| Text.CaseMappingUpToCase | version.py:19-67 | lower, upper and capitalize change only the case of letters: mapping the result back to one case gives the same text as mapping the original |
| Text.CapitalizeIgnoresCase | version.py:59 | capitalizing the lower-cased first token gives the same as capitalizing the token itself |
| Text.CaseMappingKeepsOut | version.py:55-67 | lower, upper and capitalize never introduce a character that is not a letter |
| Classifier.ClassifyParts | version.py:19-78 | the cascade on the tokens; category and display name are absent together or present together |
| Classifier.ClassifyServer | version.py:17-78 | `classify_server`: category and display name absent or present together; a display name is a non-empty, whitespace-free token |
| Classifier.DisplayIsToken | version.py:22-67 | on whitespace-split tokens, every display name is a token |
| Classifier.DisplayShape | version.py:22-67 | a display name is "Launchpad", "Core", the upper-cased or capitalized first token, or the capitalized second token |
| Classifier.DisplayKeepsOut | version.py:22-67 | a display name holds no non-letter character that is absent from the server name |
| Classifier.ClassifiableIff | version.py:18-56 | the classifier is defined exactly on names that have a token and are not a two-token `ixt` name |
| Classifier.SingleToken | version.py:20-28 | a one-token name is `cms` (BE Standard API, "Launchpad"), `cat` (BE Standard API, "CAT"), or unclassified |
| Classifier.CoreGroup | version.py:32-39 | `core`/`internal` names: WEB, API, GW map to FE Service, BE Standard API, BE Gateway under "Core"; anything else is unclassified |
| Classifier.CmsGroup | version.py:40-43 | a multi-token `cms` name classifies only on WEB, as FE Service "Launchpad" |
| Classifier.PrmGroup | version.py:44-53 | `prm` names: WEB, API, STD API, GW map to FE Service, BE internal-API, BE Standard API, BE Gateway under "PRM" |
| Classifier.IxtGroup | version.py:54-57 | an `ixt` name of three or more tokens classifies only when the third token is WEB, named after the capitalized second token |
| Classifier.NamedGroup | version.py:58-65 | `claim`/`auth`/`system`/`event` names: WEB, API, GW map to FE Service, BE Standard API, BE Gateway under the capitalized first token |
| Classifier.DefaultGroup | version.py:66-78 | any other first token: WEB, API, INTERNAL API, STD API, GW in that order of precedence, under the capitalized first token |
| Classifier.FirstTokenCaseInsensitive | version.py:19-67 | token sequences differing only in the case of the first token classify alike |
| Classifier.ClassifyJoined | version.py:17-18 | a name written as space-separated tokens classifies as its token sequence does |
| Classifier.UpperCaseCoreWeb | version.py:32-35 | "CORE WEB" is FE Service "Core" |
| Classifier.LowerCaseCoreWeb | version.py:32-39 | "core web" is unclassified: tokens after the first are compared case-sensitively |
| Classifier.PrmStandardApi | version.py:44-51 | "prm STD API" is BE Standard API "PRM" |
| Classifier.SingleCms | version.py:20-23 | "cms" is BE Standard API "Launchpad" |
| Classifier.UnknownName | version.py:66-78 | "foo BAR" is unclassified |
| Classifier.AuthApi | version.py:58-63 | "auth API" is BE Standard API "Auth" |
| Classifier.MultiTokenCat | version.py:66-69 | "cat WEB" takes the default rules: FE Service "Cat" |
| Classifier.IxtTwoTokensFaults | version.py:54-56 | "ixt Portal" is outside the classifier's domain (the third token is read unconditionally) |
| RuleTable.FirstMatchIsFirst | version.py:32-78 | the rule list answers None exactly when no rule matches, otherwise the category of the first matching rule |
| RuleTable.CascadeIsTable | version.py:17-78 | on every accepted token sequence the cascade equals the table lookup |
| RuleTable.CoreAgrees | version.py:32-39 | the `core`/`internal` branch equals its plan |
| RuleTable.CmsAgrees | version.py:40-43 | the multi-token `cms` branch equals its plan |
| RuleTable.PrmAgrees | version.py:44-53 | the `prm` branch equals its plan |
| RuleTable.IxtAgrees | version.py:54-57 | the `ixt` branch equals its plan |
| RuleTable.NamedAgrees | version.py:58-65 | the `claim`/`auth`/`system`/`event` branch equals its plan |
| RuleTable.DefaultAgrees | version.py:66-77 | the default branch equals the default plan |
| RuleTable.CoreRulesMatch | version.py:34-39 | the core rule list tests WEB, API, GW in that order |
| RuleTable.PrmRulesMatch | version.py:46-53 | the prm rule list tests WEB, API, STD API, GW in that order |
| RuleTable.DefaultRulesMatch | version.py:68-77 | the default rule list tests WEB, API, INTERNAL API, STD API, GW in that order |
| Aggregation.EmptyMatrixComplete | version.py:121-126 | the initial matrix has an (empty) entry for every category |
| Aggregation.NameOf | version.py:131 | the `server_name` field; when it is missing, the empty name, which has no token and cannot be classified |
| Aggregation.VersionOf | version.py:132-133 | the chosen environment's `version` field when both the environment entry and the field exist, otherwise "-" |
| Aggregation.EntryOf | version.py:131-135 | a record's entry is well formed: category and display name absent or present together |
| Aggregation.Step | version.py:135-139 | one record keeps an entry for every category; an unclassified record changes nothing |
| Aggregation.StepEffect | version.py:136-139 | a classified record lists its display name, appending it only when not yet listed, stores its version in its own cell and leaves every other cell as it was |
| Aggregation.Fold | version.py:130-139 | the summary built from any entries keeps an entry for every category |
| Aggregation.Summarize | version.py:121-139 | the summary of the records has an entry for every category, a duplicate-free service list, and no cell whose name is not listed |
| Aggregation.Aggregate | version.py:121-139 | the loop yields the fold of the records' entries; no duplicate services; a name is listed iff some record classifies to it; every cell's name is listed |
| Aggregation.ServicesHaveNoDuplicates | version.py:137-138 | the service list never holds a display name twice |
| Aggregation.ServicesAreClassifiedNames | version.py:135-138 | a name is on the service list iff some entry classifies to it |
| Aggregation.ServicesInFirstSeenOrder | version.py:130-138 | services appear in the order their names are first produced |
| Aggregation.CellsBelongToServices | version.py:136-139 | every cell's name is a listed service, and every listed service has a cell |
| Aggregation.CellValuesFromEntries | version.py:133-139 | every stored version is the version of some entry |
| Aggregation.LastWriteWins | version.py:139 | the cell of (category, name) holds the version of the last entry that classifies as that pair |
| Aggregation.CellsComeFromEntries | version.py:136-139 | a cell exists for (category, name) iff some entry classifies as that pair |
| Aggregation.UnclassifiedEntryIgnored | version.py:136 | inserting an unclassified entry anywhere changes nothing |
| Aggregation.RecordLastWriteWins | version.py:130-139 | on records: the cell holds the chosen environment's version of the last record with that classification, or "-" |
| Aggregation.RecordUnclassifiedIgnored | version.py:130-139 | on records: a record whose name classifies as nothing does not change the summary |
| Table.Cell | version.py:147 | the stored version of the service in that category when there is one, otherwise "-" |
| Table.RowCells | version.py:144-147 | five cells: the service, then its cell in each category in column order |
| Table.RowLine | version.py:148 | a row line opens with "| " and closes with " |" |
| Table.Render | version.py:141-148 | the table text begins with the header and separator lines, each ended by a newline, and is exactly those two lines when no service is listed |
| Table.TerminatedSplit | version.py:148 | newline-ended lines followed by a newline-free tail cut at newlines into the lines and the tail |
| Table.BuildTable | version.py:141-148 | the table loop produces the rendering of the service list and matrix |
| Table.BuildRow | version.py:145-147 | the row loop produces the service followed by its four cells in column order, "-" where absent |
| Table.HeaderFields | version.py:141-142 | the header cuts at `|` into the five padded column titles; the labels follow the row order; the dash runs are as wide as the padded titles |
| Table.RowFields | version.py:148 | a row cuts at `|` into exactly seven pieces: the padded service and four padded cells between two empty pieces |
| Table.RowLineHasNoNewline | version.py:148 | a row built from newline-free cells is one line |
| Table.TableLines | version.py:141-148 | cut at newlines, the table is the header, the separator, one line per service in list order, then the empty tail |
| Reports.EnvironmentReport | version.py:116-148 | the report for a chosen environment is the rendering of the records' summary |
| Reports.SitReport | get_version.py:116-148 | the `sit` variant is the same report with the environment fixed to "sit" |
| Reports.ReportShape | version.py:130-148 | on records whose names and versions hold no newline or bar, the report has one line per service and each line holds the service's five cells |
| Reports.OneRecord | version.py:130-148 | one record classified as (c, d) gives the service list [d], its version in column c and "-" elsewhere |
| Reports.TwoRecordsAlike | version.py:137-139 | two records with the same classification give one service holding the later version |
| Reports.CoreWebReport | get_version.py:130-148 | one "CORE WEB" record at 1.2.0 gives service Core: 1.2.0 under FE Service, "-" in the other columns |
| Reports.MissingEnvironmentReport | version.py:131-139 | a record without the chosen environment is still listed, with "-" as its version |
| Reports.RepeatedRecordReport | get_version.py:130-139 | two "auth API" records at 1.0 then 1.1 give one service Auth holding 1.1 |

## Left out

- `fetch_data`: the HTTP request and the failure path (a non-200 status
  prints the code and ends the run). The model starts from the fetched
  records.
- `markdown_to_image`: rendering the table as a picture needs pandas and
  matplotlib. The lines and cells it reads back are stated by
  `Table.TableLines`, `Table.HeaderFields` and `Table.RowFields`. Its
  `strip()` drops the empty text after the final newline.
- Writing `test.md`, the Desktop path and the final `print` are I/O and are
  not modelled.
- Command-line parsing is not modelled. This includes the restriction of
  the environment to `dev`, `dev2`, `sit` and `sit2`.
  `Reports.EnvironmentReport` accepts any key, as `main` itself does.
- JSON values that are not strings or objects are not modelled. This covers
  a `server_name` of `null` or a number, and an environment entry that is
  not an object. Records are modelled with string names and string-to-string
  environment entries.
- Faults are preconditions. When a name has no token, or is a two-token
  `ixt` name, the code raises `IndexError` and ends the run. The model
  requires every name to be classifiable (`Classifier.Classifiable`,
  `Aggregation.AllClassifiable`). `Classifier.ClassifiableIff` states
  exactly which names are excluded.
- A record without `server_name` is not skipped as unclassified, as one
  might expect. The code reads it as the empty name, and `"".split()[0]`
  faults. The model follows the code: for such a record
  `Aggregation.NameOf` gives "", which puts it outside
  `Aggregation.AllClassifiable`.
- Text.Lower: models only ASCII case mapping. Python's `lower`, `upper` and
  `capitalize` also map non-ASCII letters, and some change a string's
  length. The same holds for Text.Upper and Text.Capitalize.
