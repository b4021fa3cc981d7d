# Drawing metadata extraction: a Dafny model of its core

The system reads scanned engineering drawings and turns them into structured
manufacturing metadata. That metadata covers the material grade, surface roughness,
GD&T standards, tolerance tables, welding instructions, and the drawing number and
revision. An OCR library produces the text. A generative model is asked for a JSON
object holding sixteen target keys. This project models and proves the code that
surrounds that call:

- **`extract_fields_with_llm`** (`src/llm_extractor.py`):
  - blank text gives a default "empty result";
  - otherwise it truncates the text, builds the prompt and asks the model up to three
    times;
  - it returns the first reply that coerces to JSON and normalises.
- **`_normalize`** and its helpers (`src/llm_extractor.py`): the repair pass that
  turns the model's loosely shaped JSON into the sixteen-field record. It:
  - projects onto the target keys and cleans scalars and lists;
  - removes material form words, infers the grade, and separates post-treatment from
    grade;
  - de-duplicates welding notes and moves narrative welding designations into them;
  - fills boolean flags from keywords;
  - normalises the surface-roughness, GD&T and tolerance-table sub-objects, including
    the legacy table;
  - finds the drawing number and revision;
  - coerces `Notes` to a list.
- **`prepare_csv_row`**, **`_bands`**, **`CSV_FIELDS`** and the "no relevant data"
  test (`tools/run_batch.py`): the flattening of a record into a 31-column CSV row.
- **`load_profile`** (`src/client_profile.py`): the one-level merge of a client
  profile onto the base profile, serialised for the prompt.

Modules, in dependency order:

| file | module | models |
|---|---|---|
| `text.dfy` | `Text` | the string methods the code uses (`strip`, `lower`, `upper`, `replace`, `split`, `join`, whitespace collapsing) |
| `json.dfy` | `JsonValue` | JSON values. Dicts are ordered entry lists, as Python dicts are. Also `bool()`, `or`, `dict.get`, assignment, `update`, `str()`, `json.dumps`, and the exceptions (`Py`) |
| `patterns.dfy` | `Patterns` | hand-written recognisers of the fixed regular expressions |
| `fields.dfy` | `Fields` | `TARGET_KEYS` and the sixteen-field record |
| `extractor_helpers.dfy` | `ExtractorHelpers` | `_norm_pm`, `_coerce_json`, `_pick`, `_clean_welding_notes`, `_extract_booleans`, `_normalize_tables`, `norm_table` |
| `normalize.dfy` | `Normalize` | `_normalize`, step by step, and what it guarantees |
| `orchestrator.dfy` | `Orchestrator` | `extract_fields_with_llm` and its retry loop |
| `csvrow.dfy` | `CsvRow` | `CSV_FIELDS`, `_bands`, `prepare_csv_row`, the emptiness test |
| `rows.dfy` | `RecordRows` | what `prepare_csv_row` makes of a normalised record |
| `profile.dfy` | `ClientProfile` | `load_profile` |

How the model is built:

- Every imperative part of the source is a `method` with a loop. Examples are the
  clean-up loop over `out`, `_clean_welding_notes`, `_pick`, the band loops, the row
  filling, the retry loop and the profile merge.
- Each method is proved equal to a specification function. The lemmas are stated
  about that function.
- The code's exceptions are modelled as `Raise(TypeError | AttributeError |
  ValueError)` results. Examples: `re.search` on a non-string, `.items()` on a
  non-dict, iteration over a number, and `" | ".join` over non-strings.
- The code never catches an exception inside `_normalize` or `prepare_csv_row`, so an
  exception there is the result.

## Model

| member | source | states |
|---|---|---|
| Text.Lower | src/llm_extractor.py:111 | `str.lower()` keeps the length and lower-cases each ASCII letter |
| Text.Upper | src/llm_extractor.py:164 | `str.upper()` keeps the length and upper-cases each ASCII letter |
| Text.LowerIsLower | src/llm_extractor.py:111 | a lower-cased string is lower-case, and lower-casing twice is lower-casing once |
| Text.LowerNoop | src/llm_extractor.py:129 | lower-casing a lower-case string changes nothing |
| Text.ReplaceChar | src/llm_extractor.py:148 | `replace(a, b)` of one character changes exactly the positions holding `a` into `b` |
| Text.RemoveChar | src/llm_extractor.py:164 | `replace(" ", "")` removes every occurrence of the character and keeps all other characters |
| Text.RemoveCharAppend | src/llm_extractor.py:164 | removing a character from a concatenation removes it from each part, so the kept characters stay in their order |
| Text.RemoveCharOne | src/llm_extractor.py:164 | a single character is removed exactly when it is the one removed |
| Text.LeadRun | src/llm_extractor.py:156 | the leading run that `strip(chars)` cuts off holds only stripped characters |
| Text.StripWherePiece | src/llm_extractor.py:156 | after the leading run is cut off, the piece kept before the trailing run occurs in the input, and the trailing run holds only stripped characters |
| Text.StripWhere | src/llm_extractor.py:156 | `strip(chars)` is no longer than its input, has no stripped character at either end, and is empty exactly when every character is stripped |
| Text.StripWhereCut | src/llm_extractor.py:156 | `strip(chars)` gives a contiguous piece of the input, and every character cut off before or after the piece is a stripped character |
| Text.StripWhereJoin | src/llm_extractor.py:156 | `strip(chars)` of `x + m + y`, where `x` ends and `y` starts with a kept character, strips only the outer end of each piece and keeps `m` whole |
| Text.Strip | src/llm_extractor.py:148 | `strip()` is no longer than its input and has no whitespace at either end; it is empty exactly when the input is all whitespace |
| Text.StripCut | src/llm_extractor.py:148 | `strip()` gives a contiguous piece of the input, and every character cut off before or after the piece is whitespace |
| Text.StripIdempotent | src/llm_extractor.py:148 | trimming twice is trimming once |
| Text.StripNoop | src/llm_extractor.py:67 | a string with no whitespace at its ends is its own trim |
| Text.CollapseSpaces | src/llm_extractor.py:110 | `re.sub(r"\s+", " ", s)`: every whitespace left is a single space, no two are adjacent, and emptiness and leading or trailing whitespace are kept |
| Text.NonSpaces | src/llm_extractor.py:110 | the non-whitespace characters of a string, in order, are no more than the string |
| Text.NonSpacesAppend | src/llm_extractor.py:110 | the non-whitespace characters of a concatenation are those of each part, in order |
| Text.NonSpacesOfSpaces | src/llm_extractor.py:110 | a string of whitespace has no non-whitespace characters |
| Text.CollapseNoSpaces | src/llm_extractor.py:110 | `re.sub(r"\s+", " ", s)` leaves text without whitespace unchanged |
| Text.CollapseAppend | src/llm_extractor.py:110 | after a piece ending in a non-whitespace character, the collapse of a concatenation is the collapse of each piece |
| Text.CollapseLeadRun | src/llm_extractor.py:110 | a leading whitespace run before non-whitespace becomes exactly one blank |
| Text.CollapseRun | src/llm_extractor.py:110 | a whitespace run between two pieces becomes exactly one blank, neither vanishing nor staying longer |
| Text.CollapseNonSpaces | src/llm_extractor.py:110 | `re.sub(r"\s+", " ", s)` keeps every non-whitespace character, in order |
| Text.StripNonSpaces | src/llm_extractor.py:110 | `strip()` keeps every non-whitespace character, in order |
| Text.NonSpacesPiece | src/llm_extractor.py:110 | cutting whitespace-only text off both ends keeps the non-whitespace characters |
| Text.NonSpacesDropHead | src/llm_extractor.py:110 | cutting a whitespace-only prefix keeps the non-whitespace characters |
| Text.NonSpacesDropTail | src/llm_extractor.py:110 | cutting a whitespace-only suffix keeps the non-whitespace characters |
| Text.PieceSingleSpaces | src/llm_extractor.py:110 | a contiguous piece of a string whose whitespace is single ' ' characters has whitespace of the same kind |
| Text.StripSingleSpaces | src/llm_extractor.py:110 | trimming keeps whitespace single ' ' characters, none adjacent to another |
| Text.CollapseStrip | src/llm_extractor.py:110 | `re.sub(r"\s+", " ", s).strip()` keeps the non-whitespace characters in order, and its whitespace is single, non-adjacent ' ' characters |
| Text.Tidy | src/llm_extractor.py:206 | collapsed and trimmed text has no whitespace at its ends, its whitespace is single, non-adjacent ' ' characters, and it keeps the non-whitespace characters of its input in order |
| Text.StripJoin | src/llm_extractor.py:110 | trimming two words joined by one blank trims only the outer ends |
| Text.TidyRun | src/llm_extractor.py:110 | collapsing and trimming joins two words separated by any whitespace run with exactly one blank: the tidied text is the tidied first word, a blank, and the tidied second word |
| Text.TidyNoSpaces | src/llm_extractor.py:110 | text without whitespace is its own collapsed and trimmed form |
| Text.IndexOf | src/llm_extractor.py:75 | the first position of a character; `None` exactly when it is absent |
| Text.LastIndexOf | src/llm_extractor.py:75 | the last position of a character; `None` exactly when it is absent |
| Text.Join | tools/run_batch.py:119 | `sep.join` of no parts is `""` and of one part is that part |
| Text.JoinAppend | tools/run_batch.py:119 | joining one more part appends the separator and that part to the join of the others |
| Text.Split | src/llm_extractor.py:94 | `split(".")` gives at least one piece, and the string itself when the separator is absent |
| Text.SplitPiecesFree | src/llm_extractor.py:94 | no piece of a split holds the separator |
| Text.JoinSplit | src/llm_extractor.py:94 | joining the pieces of a split gives back the string |
| Text.SplitJoin | src/llm_extractor.py:94 | splitting the join of separator-free parts gives back the parts |
| JsonValue.Truthy | src/llm_extractor.py:159 | `bool(v)` is false exactly for `None`, `False`, a zero, `""`, `[]` and `{}` |
| JsonValue.Or | tools/run_batch.py:101 | `v or alt` is `v` when `v` is truthy and `alt` otherwise |
| JsonValue.Find | src/llm_extractor.py:95 | the first entry with key `k`; `None` exactly when no entry has it |
| JsonValue.Has | src/llm_extractor.py:95 | `k in d` holds exactly when some entry has key `k` |
| JsonValue.Get | src/llm_extractor.py:141 | `d.get(k)` is the value of the first entry with key `k`, and `None` when no entry has it |
| JsonValue.GetOr | tools/run_batch.py:97 | `d.get(k, default)` is the stored value when `k` is present and `default` otherwise |
| JsonValue.Keys | src/llm_extractor.py:141 | the keys of a dict, in order |
| JsonValue.FindDistinct | src/llm_extractor.py:141 | with distinct keys, each entry is found at its own position |
| JsonValue.Set | src/llm_extractor.py:149 | `d[k] = v` stores `v` under `k` and leaves every other key alone. An existing key keeps its place, and a new key goes last |
| JsonValue.UpdateGet | src/client_profile.py:29 | `d.update(u)`: the keys of both, `u`'s values winning, `d`'s keys keeping their places |
| JsonValue.Repr | src/llm_extractor.py:241 | `repr(v)` is never empty except for a number's empty text; a string is shown between single quotes, a list between brackets and a dict between braces |
| JsonValue.PyStr | src/llm_extractor.py:241 | `str(v)` of a string is the string, of `None` is `"None"`, of a boolean `"True"` or `"False"`, of a number its text, and of a list or dict its `repr` |
| JsonValue.Escape | src/client_profile.py:35 | the escaped text is no shorter than the string, and is the string itself when it holds no quote, backslash or control character |
| JsonValue.EscapeChar | src/client_profile.py:35 | `json.dumps` with `ensure_ascii=False` leaves plain printable characters as they are |
| JsonValue.Dumps | src/client_profile.py:35 | the JSON text of a value is never empty |
| Fields.TargetKeysDistinct | src/llm_extractor.py:33-50 | the sixteen target keys are distinct |
| Fields.Index | src/llm_extractor.py:33-50 | every field has a position in `TARGET_KEYS` |
| Fields.IndexOfTargetKeys | src/llm_extractor.py:33-50 | the field at position `k` of `TARGET_KEYS` has index `k` |
| Fields.KeyNames | src/llm_extractor.py:33-50 | the key names of the fields the model reads by name |
| Fields.TargetNamesDistinct | src/llm_extractor.py:33-50 | the sixteen key names are distinct |
| Fields.NameInjective | src/llm_extractor.py:33-50 | distinct fields have distinct key names |
| Fields.With | src/llm_extractor.py:149 | setting one field of a record changes that field and no other |
| Fields.Tabulate | src/llm_extractor.py:141 | the record built from a choice per field holds that choice in every field |
| Fields.RecordsEqual | src/llm_extractor.py:141 | two records agreeing on every field are equal |
| Fields.EntriesOf | src/llm_extractor.py:141 | the entries of some fields of a record, name and value, in order |
| Fields.AsDict | src/llm_extractor.py:141 | the dict of a record has exactly the sixteen `TARGET_KEYS`, in order, without repeats, each holding its field |
| Patterns.DecCommaFrom | src/llm_extractor.py:56 | the decimal-comma rewrite from position `i` on keeps the length |
| Patterns.DecComma | src/llm_extractor.py:62 | `_DEC_COMMA.sub` keeps the length |
| Patterns.DecCommaNext | src/llm_extractor.py:56 | each step of the search moves forward, and the rewrite of the rest is the rewrite from where it resumes |
| Patterns.DecCommaOnlyCommasFrom | src/llm_extractor.py:56 | from `i` on, the rewrite changes no character except a comma between digits, which becomes a point |
| Patterns.ConvertedIsPoint | src/llm_extractor.py:56 | within one step of the search, each character is kept or is a comma between digits made a point |
| Patterns.DecCommaConvertsFrom | src/llm_extractor.py:56 | a comma between digits becomes a point once the search reaches its digits, unless an earlier match consumed them |
| Patterns.DecCommaConverts | src/llm_extractor.py:62 | a comma between digits whose digit run no comma precedes becomes a point |
| Patterns.DecCommaOnlyCommas | src/llm_extractor.py:62 | `_DEC_COMMA.sub` changes nothing but commas between digits, into points |
| Patterns.PmSub | src/llm_extractor.py:55-63 | `_PM_VARIANTS.sub("±", s)` leaves no "+-" and no "+/-". It adds no new character except "±", and is empty exactly when its input is |
| Patterns.PmSubNoPlus | src/llm_extractor.py:55-63 | a string without '+' is left unchanged |
| Patterns.PmStep | src/llm_extractor.py:55 | the substitution consumes one to three characters at each step |
| Patterns.PmSubHead | src/llm_extractor.py:55-63 | each step writes '±' for a spelling and copies any other character |
| Patterns.PmStepAppend | src/llm_extractor.py:55 | after a piece that does not end in "+" or "+/", the first step on the concatenation is the first step on the piece |
| Patterns.PmSubAppend | src/llm_extractor.py:55-63 | the substitution of a concatenation is the substitution of each part, when the first part does not end in "+" or "+/" |
| Patterns.PmSubAppendStep | src/llm_extractor.py:55-63 | the inductive step of the concatenation law |
| Patterns.PmSubAppendHead | src/llm_extractor.py:55-63 | the first step on a concatenation is the first step on its first part |
| Patterns.PmSubAtoms | src/llm_extractor.py:55-63 | "+/-" and "+-" each become "±", and a single character is kept |
| Patterns.FormWordEnd | src/llm_extractor.py:57 | a form-word match ends after its start, at a word boundary |
| Patterns.SubFormWordsFrom | src/llm_extractor.py:57 | deleting form words only removes characters |
| Patterns.FirstFormWord | src/llm_extractor.py:57 | a found position lies at or after `i` and a form word matches there |
| Patterns.FirstFormWordLeftmost | src/llm_extractor.py:57 | no form word matches before the found position, and none at all from `i` on when nothing is found |
| Patterns.SubFormWordsFirst | src/llm_extractor.py:156 | with no form word from `i` on, the text from `i` is copied whole; otherwise the text up to the leftmost form word is copied, the word dropped, and deletion goes on after it |
| Patterns.SubFormWordsSkip | src/llm_extractor.py:156 | the step of that law past a character where no form word starts |
| Patterns.SubFormWords | src/llm_extractor.py:156 | `_MATERIAL_FORM_WORDS.sub("", mg)` is no longer than `mg` |
| Patterns.GradeEnd | src/llm_extractor.py:162 | a grade match at `i` starts and ends at word boundaries and does not start with a space |
| Patterns.FindGradeFrom | src/llm_extractor.py:162 | the search finds the leftmost grade match: none starts before the one returned, and `None` means none starts anywhere |
| Patterns.GradeMatch | src/llm_extractor.py:162-164 | `m.group(1)` is a non-empty piece of the text where a grade matches; `None` exactly when no position matches |
| Patterns.WordAtSome | src/llm_extractor.py:181 | the alternation matches at `i` exactly when some keyword does |
| Patterns.KeywordFromSome | src/llm_extractor.py:181 | the scan from `i` succeeds exactly when a keyword stands as a whole word at some position from `i` on |
| Patterns.HasWeldingKeywordSome | src/llm_extractor.py:181 | the welding pattern is found exactly when one of its words stands as a whole word somewhere |
| Patterns.ContinuousWeldSentence | src/llm_extractor.py:181 | a text opening with "Continuous " holds a welding keyword |
| Patterns.TokenCharNotSpace | src/llm_extractor.py:249 | no character of a captured token is whitespace |
| Patterns.TokenEnd | src/llm_extractor.py:249-253 | the maximal run of token characters from `i` |
| Patterns.TailToken | src/llm_extractor.py:249-253 | after a label, the optional colon or dash and the spaces, a non-empty maximal token is captured |
| Patterns.LabelAt | src/llm_extractor.py:249-253 | a label match at `i` captures a token after it |
| Patterns.FindLabelFrom | src/llm_extractor.py:249-253 | the search returns a position where the label pattern matches |
| Patterns.FindLabelFromLeftmost | src/llm_extractor.py:249-253 | no match starts before the position found, or anywhere when none is found |
| Patterns.LabelledToken | src/llm_extractor.py:249-255 | `m.group(1).strip()` is a non-empty run of token characters; `None` exactly when the pattern matches nowhere |
| ExtractorHelpers.NormPm | src/llm_extractor.py:59-64 | `_norm_pm` keeps `""`; otherwise it is the trim of the plus-minus substitution of the decimal-comma rewrite. It leaves no "+-" or "+/-", has no whitespace at its ends and never grows |
| ExtractorHelpers.NormPmPlain | src/llm_extractor.py:59-64 | a string with neither '+' nor ',' is only trimmed |
| ExtractorHelpers.NormPmSlashExample | src/llm_extractor.py:59-64 | `_norm_pm("+/-0,2") == "±0.2"` |
| ExtractorHelpers.NormPmSignExample | src/llm_extractor.py:59-64 | `_norm_pm("±1,5") == "±1.5"` |
| ExtractorHelpers.JsonBlock | src/llm_extractor.py:75 | the greedy `\{[\s\S]*\}` match runs from the first `{` to the last `}` after it |
| ExtractorHelpers.JsonBlockNone | src/llm_extractor.py:75-78 | there is no block exactly when no `{` comes before a `}` |
| ExtractorHelpers.JsonBlockAt | src/llm_extractor.py:75 | a first `{` and a last `}` after it delimit the block |
| ExtractorHelpers.CoerceJson | src/llm_extractor.py:66-85 | blank input gives `{}`; a parse of the trimmed text is returned; otherwise the parse of the block. It raises `ValueError` exactly when there is no block or the block does not parse |
| ExtractorHelpers.CoerceStripped | src/llm_extractor.py:71-85 | the only exception of the coercion of trimmed text is `ValueError` |
| ExtractorHelpers.CoerceBlock | src/llm_extractor.py:75-85 | when the whole text does not parse, the result is the parse of the block, or `ValueError` |
| ExtractorHelpers.EmbeddedBlock | src/llm_extractor.py:75-82 | an object inside commentary is returned when the text around it does not parse |
| ExtractorHelpers.CoerceEmbeddedObject | src/llm_extractor.py:66-85 | trimmed text that does not parse but whose block parses as `v` coerces to `v`, as in "Sure, here you go: {...} thanks" |
| ExtractorHelpers.Resolve | src/llm_extractor.py:92-99 | following no keys gives the value itself |
| ExtractorHelpers.FirstResolved | src/llm_extractor.py:91-102 | the value of the first path that resolves; `None` exactly when no path does |
| ExtractorHelpers.PickSpec | src/llm_extractor.py:87-102 | `_pick` of a non-dict is `None`; a result other than `None` is where some path resolves; when no path resolves, the result is `None` |
| ExtractorHelpers.Pick | src/llm_extractor.py:87-102 | the nested loops of `_pick` give `None` for a non-dict and otherwise the value of the first path that resolves |
| ExtractorHelpers.Iterate | src/llm_extractor.py:107 | `notes or []` on a list gives its items and on a falsy value nothing. On a truthy number or `True`, iteration raises `TypeError` |
| ExtractorHelpers.CharItems | src/llm_extractor.py:107 | iterating a string gives its characters |
| ExtractorHelpers.StrItems | src/llm_extractor.py:115 | a list of strings as JSON strings, in order |
| ExtractorHelpers.NoteText | src/llm_extractor.py:110 | a cleaned note has no whitespace at either end. Its whitespace is single, non-adjacent ' ' characters, and it keeps the non-whitespace characters of `str(n)` in order |
| ExtractorHelpers.NoteTextRun | src/llm_extractor.py:110 | two words of a note separated by any whitespace run come out joined by exactly one blank |
| ExtractorHelpers.NoteTextNoSpaces | src/llm_extractor.py:110 | a note without whitespace is kept exactly as written |
| ExtractorHelpers.NoteTexts | src/llm_extractor.py:107-110 | the cleaned texts of the truthy notes are no more than the notes |
| ExtractorHelpers.DedupCI | src/llm_extractor.py:111-114 | the case-insensitive de-duplication is no longer than its input |
| ExtractorHelpers.CleanNotes | src/llm_extractor.py:104-115 | `_clean_welding_notes` gives no more notes than it was given |
| ExtractorHelpers.CleanWeldingNotes | src/llm_extractor.py:104-115 | the method raises when iterating the notes raises, and otherwise returns the cleaned list |
| ExtractorHelpers.CleanItems | src/llm_extractor.py:105-115 | the loop over `seen` and `out` computes the cleaned list |
| ExtractorHelpers.DedupCILast | src/llm_extractor.py:112-114 | one more text is appended exactly when its lower-case form has not been seen |
| ExtractorHelpers.DedupCISeen | src/llm_extractor.py:111-114 | every output is an input, and every input's lower-case form is among the outputs' |
| ExtractorHelpers.DedupCIDistinct | src/llm_extractor.py:111-114 | no two outputs are equal after lower-casing |
| ExtractorHelpers.DedupCIFirst | src/llm_extractor.py:111-114 | the output is the first text of each lower-case class, in first-seen order and with its original casing |
| ExtractorHelpers.FirstOfClassSeen | src/llm_extractor.py:112 | a text opens a new class exactly when its lower-cased form is not in `seen` |
| ExtractorHelpers.CleanNotesSpec | src/llm_extractor.py:104-115 | the cleaned notes are pairwise distinct after lower-casing. Each is a cleaned input. Every input's class is represented, by its first member, in order |
| ExtractorHelpers.NoteTextsFrom | src/llm_extractor.py:107-110 | every cleaned text comes from a truthy note |
| ExtractorHelpers.ExtractBooleans | src/llm_extractor.py:117-124 | the two flags, in order, each true exactly when one of its phrases occurs in the lower-cased text |
| ExtractorHelpers.LowerSlice | src/llm_extractor.py:118 | lower-casing commutes with slicing |
| ExtractorHelpers.PhraseSetsFlag | src/llm_extractor.py:118-120 | a phrase occurring in any case sets its flag |
| ExtractorHelpers.DeburrExample | src/llm_extractor.py:119 | "Please Deburr Edges" sets the break-sharp-edges flag |
| ExtractorHelpers.StripLower | src/llm_extractor.py:129 | `strip().lower()` is lower-case and has no whitespace at its ends |
| ExtractorHelpers.TableUnit | src/llm_extractor.py:129 | the table unit is non-empty, lower-case and trimmed, `"mm"` when blank |
| ExtractorHelpers.TableBands | src/llm_extractor.py:130-132 | `obj.get("bands", {}) or {}` is a dict's entries. A truthy non-dict raises `AttributeError` at `.items()` |
| ExtractorHelpers.StringBands | src/llm_extractor.py:132-137 | the string bands, normalised, keep distinct keys |
| ExtractorHelpers.StringBandsGet | src/llm_extractor.py:132-137 | a band is kept exactly when its value is a string, and then holds `_norm_pm` of it |
| ExtractorHelpers.NormalizeTablesSpec | src/llm_extractor.py:126-138 | a non-dict gives `None`; a dict gives `{"unit": ..., "bands": ...}` |
| ExtractorHelpers.NormalizeTables | src/llm_extractor.py:126-138 | the method computes `_normalize_tables` |
| ExtractorHelpers.StringBandsLoop | src/llm_extractor.py:131-137 | the loop filling `out_bands` computes the string bands |
| ExtractorHelpers.AllBands | src/llm_extractor.py:239-241 | `out_b` has distinct keys and every value is a string or `None` |
| ExtractorHelpers.AllBandsGet | src/llm_extractor.py:240-241 | `out_b` has the keys of the bands, with `_norm_pm(str(v))` for every value that is not `None` |
| ExtractorHelpers.NormTableSpec | src/llm_extractor.py:235-243 | `norm_table` gives `None` or a `{"unit", "bands"}` dict; its only exception is `AttributeError` |
| ExtractorHelpers.NormTable | src/llm_extractor.py:235-243 | the method computes `norm_table` |
| ExtractorHelpers.AllBandsLoop | src/llm_extractor.py:239-241 | the loop filling `out_b` computes the normalised bands |
| ExtractorHelpers.NormTableAfterNormalize | src/llm_extractor.py:227-245 | `norm_table` of a `_normalize_tables` result re-normalises its bands and keeps its unit |
| ExtractorHelpers.FindLast | src/llm_extractor.py:239-241 | with distinct keys, the last entry's key is found only there; any other key is found where it was before the last entry |
| ExtractorHelpers.DoubleNormBands | src/llm_extractor.py:227-245 | after both passes, the bands are the string bands, with `_norm_pm` applied twice |
| Normalize.Project | src/llm_extractor.py:141 | every field of the projection is `data.get` of its key |
| Normalize.CleanItem | src/llm_extractor.py:151 | a list item is dropped exactly when `str(x).strip()` is empty |
| Normalize.CleanList | src/llm_extractor.py:151 | a cleaned list has only strings and no more items |
| Normalize.CleanListOne | src/llm_extractor.py:151 | one item is dropped when `str(x).strip()` is empty, and otherwise becomes its whitespace-collapsed, trimmed text |
| Normalize.CleanListHead | src/llm_extractor.py:151 | the comprehension cleans the first item, then the rest |
| Normalize.CleanListAppend | src/llm_extractor.py:151 | the comprehension works item by item: the cleaned concatenation is the concatenation of the cleaned parts, so the kept items stay in order |
| Normalize.ConsString | src/llm_extractor.py:151 | a kept string put in front of a list of strings gives a list of strings one longer |
| Normalize.CleanValue | src/llm_extractor.py:145-151 | `None` stays `None`. A string becomes a trimmed non-empty string or `None`. Lists become cleaned lists, and everything else, dicts included, is kept |
| Normalize.CleanScalars | src/llm_extractor.py:144-151 | the clean-up rewrites every field by `CleanValue` |
| Normalize.CleanScalarsLoop | src/llm_extractor.py:144-151 | the loop over `out.items()` computes the cleaned record |
| Normalize.CleanStep | src/llm_extractor.py:144-151 | one pass of the loop cleans the next field and no other |
| Normalize.StripFormWords | src/llm_extractor.py:154-157 | only the grade changes. A string grade is cut down to a piece of the text left once form words are deleted, with no ' ', '-', '_' or ',' at its ends, and becomes `None` exactly when that text holds nothing else. Deletion can leave text that forms a new form word or a double space, as in "round sheet bar" |
| Normalize.GradeText | src/llm_extractor.py:164 | the inferred grade has no spaces, and is non-empty for a match that does not start with a space |
| Normalize.InferGrade | src/llm_extractor.py:159-166 | only a falsy grade changes, and only when the raw text holds a grade: it becomes the match, upper-cased and without spaces |
| Normalize.InferGradeTruthy | src/llm_extractor.py:159-166 | a missing grade is filled exactly when the raw text holds a grade |
| Normalize.PostTreatmentStep | src/llm_extractor.py:169-174 | a truthy non-string raises `TypeError`. A post-treatment naming a grade becomes `None` and fills a missing grade with the match. An existing grade is never overwritten, and no other field changes |
| Normalize.NotesValue | src/llm_extractor.py:104-115 | the cleaned notes are a list of strings distinct after lower-casing |
| Normalize.WeldingNotesStep | src/llm_extractor.py:177-178 | truthy welding notes are replaced by their cleaned list. Falsy ones are kept, and only notes that cannot be iterated raise |
| Normalize.AppendDesignation | src/llm_extractor.py:182-185 | the designation is appended to the notes, the list is cleaned again, and the designation becomes `None` |
| Normalize.MoveDesignation | src/llm_extractor.py:180-185 | a truthy non-string raises `TypeError`. A narrative designation moves into the notes, or raises `AttributeError` when the notes are not a list; inside `_normalize` that error cannot arise, because line 178 has already made truthy notes a list and line 182 turns falsy ones into `[]`. Otherwise nothing changes, and no narrative designation is left |
| Normalize.MovedIntoMissingNotes | src/llm_extractor.py:180-185 | a narrative designation beside missing notes moves, and the notes become the cleaned one-element list |
| Normalize.ContinuousWeldMoved | src/llm_extractor.py:180-185 | "Continuous weld, grind smooth at corners" moves into empty notes and the designation becomes `None` |
| Normalize.FillFlags | src/llm_extractor.py:189-191 | the flag loop never overwrites a field that is not `None` |
| Normalize.FillFlagsOther | src/llm_extractor.py:189-191 | the flag loop leaves the other fields alone |
| Normalize.FillFlagsKeeps | src/llm_extractor.py:189-191 | a field that is not `None` is never overwritten by the flag loop |
| Normalize.FlagsFromRaw | src/llm_extractor.py:188-191 | the flag loop sets exactly the two flags, each from the raw text when it was `None` |
| Normalize.FlagValue | src/llm_extractor.py:190-191 | a flag ends up not `None`: an explicit value, `False` included, is kept, and `None` becomes the keyword result |
| Normalize.FillFlagsLoop | src/llm_extractor.py:189-191 | the loop over `bools.items()` computes the filled record |
| Normalize.RoughnessUnitMicro | src/llm_extractor.py:197-200 | the unit is kept or becomes "µm"; "um" in any case becomes "µm" and "mm" is kept |
| Normalize.MapString | src/llm_extractor.py:197-206 | rewriting one string sub-field changes that key only and keeps the keys |
| Normalize.DecimalValue | src/llm_extractor.py:202 | the roughness value, decimal commas made points and trimmed, has no whitespace at its ends |
| Normalize.RoughnessUnitValue | src/llm_extractor.py:197-202 | a string unit and a string value are rewritten |
| Normalize.RoughnessParameter | src/llm_extractor.py:203-204 | a string parameter is trimmed |
| Normalize.RoughnessStandard | src/llm_extractor.py:205-206 | a string standard is collapsed and trimmed |
| Normalize.RoughnessFieldsOther | src/llm_extractor.py:195-207 | other keys of the roughness dict are kept |
| Normalize.NormRoughness | src/llm_extractor.py:194-209 | only the roughness changes: a dict gets its sub-fields rewritten, and anything else becomes `None` |
| Normalize.StandardEntries | src/llm_extractor.py:215-218 | string `standard` and `scope` are collapsed and trimmed, and other keys are kept |
| Normalize.TidiedAt | src/llm_extractor.py:216 | a tidied string sub-field holds the tidy text |
| Normalize.NormStandard | src/llm_extractor.py:213-222 | only that sub-record changes: a dict is tidied and anything else becomes `None` |
| Normalize.NormStandards | src/llm_extractor.py:212-222 | the standards loop leaves fields outside its keys alone |
| Normalize.NormStandardsOther | src/llm_extractor.py:212 | the loop leaves fields outside its keys alone |
| Normalize.StandardsSteps | src/llm_extractor.py:212-222 | the loop is the geometrical step, then the dimensional one |
| Normalize.NormStandardsLoop | src/llm_extractor.py:212-222 | the loop computes the tidied record |
| Normalize.NormTolerance | src/llm_extractor.py:226-227 | a truthy table becomes `_normalize_tables` of it, raising as it does; a falsy one is kept; no other field changes |
| Normalize.NormTolerances | src/llm_extractor.py:225-227 | when it does not raise, the tolerances loop leaves fields outside its keys alone |
| Normalize.NormTolerancesOther | src/llm_extractor.py:225 | the loop leaves other fields alone |
| Normalize.NormTolerancesLoop | src/llm_extractor.py:225-227 | the loop computes the normalised tables |
| Normalize.NormToleranceStep | src/llm_extractor.py:226-227 | one pass of the loop gives the same table, or the same exception, as `NormTolerance` |
| Normalize.NormTolerancesHead | src/llm_extractor.py:225-227 | the loop stops at the first table that raises, and otherwise goes on from the record the first table leaves |
| Normalize.LegacyTable | src/llm_extractor.py:230-232 | a truthy legacy table is used exactly when general-linear is falsy, through `_normalize_tables`. Nothing else changes |
| Normalize.NormTableField | src/llm_extractor.py:245 | a table becomes `None` or normalised; non-dicts become `None`; it raises exactly when a truthy table's bands are a truthy non-dict |
| Normalize.NormTables | src/llm_extractor.py:244-245 | when it does not raise, the `norm_table` loop leaves fields outside its keys alone |
| Normalize.NormTablesOther | src/llm_extractor.py:244 | the loop leaves other fields alone |
| Normalize.TableSteps | src/llm_extractor.py:225-245 | each table loop is the three tables in order |
| Normalize.NormTablesLoop | src/llm_extractor.py:244-245 | the loop computes the `norm_table` pass |
| Normalize.FillLabel | src/llm_extractor.py:248-255 | a falsy label field takes the token after its label in the raw text, when there is one; nothing else changes |
| Normalize.NotesValueOf | src/llm_extractor.py:258-261 | `None` becomes `[]`; a string becomes `[trimmed]`, or `[]` when blank; anything else is kept; never `None` or a string |
| Normalize.NotesList | src/llm_extractor.py:258-261 | only the notes change |
| Normalize.Pipeline | src/llm_extractor.py:169-263 | an exception of the welding stages is the result; after them, the result raises exactly when the table stages do |
| Normalize.Welding | src/llm_extractor.py:169-185 | the welding stages change only the grade, post-treatment, notes and designation |
| Normalize.FlagsAndObjects | src/llm_extractor.py:188-222 | these stages change only the flags and the three sub-records |
| Normalize.Tables | src/llm_extractor.py:225-245 | these stages change only the three tables |
| Normalize.Finish | src/llm_extractor.py:248-261 | these stages change only the drawing number, the revision and the notes |
| Normalize.NormalizeSpec | src/llm_extractor.py:140-263 | `_normalize` of a non-dict raises `AttributeError` |
| Normalize.WeldingNotesSteps | src/llm_extractor.py:177-178 | the method computes the welding-notes step |
| Normalize.MoveDesignationSteps | src/llm_extractor.py:180-185 | the method computes the designation step |
| Normalize.TablesSteps | src/llm_extractor.py:225-245 | the method computes the table stages, legacy included |
| Normalize.Normalize | src/llm_extractor.py:140-263 | the method updating `out` step by step computes `_normalize` |
| Normalize.WeldingProps | src/llm_extractor.py:169-185 | afterwards no narrative designation is left, truthy notes are distinct strings, and a truthy post-treatment names no grade |
| Normalize.WeldingGrade | src/llm_extractor.py:169-185 | the notes steps keep the grade and post-treatment as the post-treatment step left them |
| Normalize.ObjectsProps | src/llm_extractor.py:194-222 | the sub-records are dicts or `None`, and each dict is rewritten as stated |
| Normalize.FlagsAndObjectsProps | src/llm_extractor.py:188-222 | the flags come from `FlagValue`, and the sub-records are dicts or `None` |
| Normalize.TolerancesProps | src/llm_extractor.py:225-227 | the first table pass keeps falsy tables. It keeps non-empty dicts non-empty and non-dicts non-dicts |
| Normalize.NormTablesProps | src/llm_extractor.py:244-245 | after `norm_table`, every table is `None` or normalised, and every non-dict is `None` |
| Normalize.TablesProps | src/llm_extractor.py:225-245 | after all table stages, the tables are `None` or normalised. Non-dicts are `None`, unless the legacy dict fills general-linear |
| Normalize.LegacyIgnored | src/llm_extractor.py:230-232 | the legacy table is irrelevant when general-linear is a non-empty dict |
| Normalize.LegacyFills | src/llm_extractor.py:230-245 | a truthy legacy table fills a falsy general-linear through both table passes |
| Normalize.FinishProps | src/llm_extractor.py:248-261 | the labels come from the raw text only when falsy, and the notes become a list |
| Normalize.NormalizeShape | src/llm_extractor.py:140-263 | every result has the promised shape: the welding promises, sub-records dicts or `None`, tables `None` or normalised, both flags set, notes neither `None` nor a string |
| Normalize.PipelineShape | src/llm_extractor.py:169-263 | the stages after the grade keep that shape whatever record they start from |
| Normalize.PipelineFlags | src/llm_extractor.py:188-191 | the flags of the result come from `FlagValue` |
| Normalize.PipelineNotes | src/llm_extractor.py:258-261 | the notes of the result are `NotesValueOf` the cleaned notes |
| Normalize.PipelineLabels | src/llm_extractor.py:248-255 | the labels of the result follow the label rule |
| Normalize.PipelineGrade | src/llm_extractor.py:169-174 | the grade and post-treatment of the result follow the post-treatment rule |
| Normalize.PipelineTables | src/llm_extractor.py:225-245 | non-dict tables of the result are `None` |
| Normalize.NormalizeFlags | src/llm_extractor.py:140-263 | an explicit boolean from the model, `False` included, is kept; a missing flag comes from the raw text |
| Normalize.NotesOfCleaned | src/llm_extractor.py:258-261 | missing notes give `[]`, a string gives its trimmed text or `[]`, and a list gives its cleaned items |
| Normalize.NormalizeNotes | src/llm_extractor.py:140-263 | missing notes give `[]`. A string gives one trimmed element with newlines made spaces, or `[]`. A list gives its cleaned items |
| Normalize.NormalizeLabels | src/llm_extractor.py:140-263 | a drawing number or revision is kept when truthy after clean-up, and otherwise taken from the raw text |
| Normalize.NormalizeGrade | src/llm_extractor.py:140-263 | a grade still truthy after the form-word clean-up is kept; a missing one is inferred from the raw text, upper-cased. Otherwise, when post-treatment names a grade, the grade is taken from it as matched and post-treatment becomes `None` |
| Normalize.NormalizeTablesNonDict | src/llm_extractor.py:140-263 | tables the model gave as non-dicts are `None` in the result, general-linear unless the legacy table is a dict |
| Orchestrator.EmptyResultFields | src/llm_extractor.py:273-275 | `empty_result` is `None` everywhere except `Welding_Notes` and `Notes`, which are `[]` |
| Orchestrator.Truncate | src/llm_extractor.py:281 | the text itself when short enough, else its prefix of `max_chars` characters (a negative bound counts from the end) |
| Orchestrator.ProfileBlock | src/llm_extractor.py:284-291 | an empty or failing profile gives no block; otherwise the heading, the JSON and a blank line |
| Orchestrator.Prompt | src/llm_extractor.py:294-299 | the prompt is the system text, the profile block and the substituted template; `None` exactly when substitution raises |
| Orchestrator.AttemptOutcome | src/llm_extractor.py:309-339 | blocked and blank replies are skipped and raising calls raise. A non-blank reply that does not come back is raised, so a failure to coerce or normalise also sleeps. A reply is returned exactly when it coerces and normalises, and the result is the normalised record |
| Orchestrator.Wait | src/llm_extractor.py:341 | the wait after attempt `i` is `15 * (i + 1)` tenths of a second |
| Orchestrator.AttemptEvents | src/llm_extractor.py:308-343 | each attempt calls the model once, and sleeps afterwards only when it raised |
| Orchestrator.ExtractSpec | src/llm_extractor.py:277-279 | blank text returns `empty_result` without calling the model |
| Orchestrator.RunAttempt | src/llm_extractor.py:307-343 | one pass of the loop ends in its outcome, with its own events |
| Orchestrator.Retry | src/llm_extractor.py:306-346 | a record is returned only when some attempt from `i` on returned it, and none is returned exactly when no attempt returns; there are events exactly when attempts remain |
| Orchestrator.Outcomes | src/llm_extractor.py:309-339 | the outcome of attempt `j` is the environment's reply to that attempt, coerced and normalised |
| Orchestrator.RetryStep | src/llm_extractor.py:306-343 | an attempt that does not return is followed by the next one |
| Orchestrator.RetryReturns | src/llm_extractor.py:329 | an attempt that returns ends the loop with its record |
| Orchestrator.RetryLoopNext | src/llm_extractor.py:306-343 | an attempt that does not return keeps the loop's link to the specified result and trace |
| Orchestrator.RetryLoopDone | src/llm_extractor.py:327-329 | an attempt that returns ends the loop with the specified result and trace |
| Orchestrator.RetryLoop | src/llm_extractor.py:306-346 | the `for attempt in range(3)` loop computes the specified result and trace |
| Orchestrator.ExtractFieldsWithLlm | src/llm_extractor.py:268-346 | the method computes `extract_fields_with_llm`'s result and its calls and sleeps |
| Orchestrator.CallCount | src/llm_extractor.py:309 | a trace has no more calls than events |
| Orchestrator.CallCountAppend | src/llm_extractor.py:306-343 | calls of two traces add up |
| Orchestrator.RetryCalls | src/llm_extractor.py:306-343 | from attempt `i` on, at most `3 - i` calls, all with the same prompt |
| Orchestrator.AtMostThreeCalls | src/llm_extractor.py:281-309 | the model is called at most three times, always on the prompt for the truncated text |
| Orchestrator.RetryExhausted | src/llm_extractor.py:306-346 | when no attempt from `i` on returns, nothing is returned after `3 - i` calls |
| Orchestrator.Exhausted | src/llm_extractor.py:345-346 | when no attempt returns, the result is `empty_result` after exactly three calls |
| Orchestrator.RetryFirst | src/llm_extractor.py:327-329 | the first returning attempt gives the result, after one call per attempt up to it |
| Orchestrator.FirstSuccess | src/llm_extractor.py:327-329 | the result is the record of the first attempt that returns, after `i + 1` calls |
| Orchestrator.RetryAllRaise | src/llm_extractor.py:331-343 | three raising attempts give three calls, each followed by its sleep of 1.5, 3 and 4.5 seconds |
| Orchestrator.RetryAllSkipped | src/llm_extractor.py:311-324 | three skipped attempts give three calls and no sleep |
| Orchestrator.AllRaise | src/llm_extractor.py:306-346 | when the model fails on all three attempts, the result is `empty_result`, with three calls and three sleeps |
| Orchestrator.AllSkipped | src/llm_extractor.py:306-346 | when all three attempts are blocked or blank, the result is `empty_result`, with three calls and no sleep |
| Orchestrator.FirstReplyReturned | src/llm_extractor.py:327-329 | a first reply that normalises is returned after one call |
| CsvRow.Headers | tools/run_batch.py:24-60 | the headers of the columns, in order |
| CsvRow.BandPos | tools/run_batch.py:129 | each band has its place in the order of the band loop |
| CsvRow.BandPosOrder | tools/run_batch.py:129 | the band at place `i` has place `i` |
| CsvRow.TablePos | tools/run_batch.py:130-132 | each table has one of three places |
| CsvRow.Pos | tools/run_batch.py:24-60 | each column has its place in `CSV_FIELDS` |
| CsvRow.TolHeaders | tools/run_batch.py:46-57 | the tolerance headers are `Tol_<table>_<band>` |
| CsvRow.BandOf | tools/run_batch.py:83-87 | `_bands` is `""` for a non-dict, falsy bands or a falsy band, and otherwise `str(value)`. Truthy bands that are not a dict raise `AttributeError` |
| CsvRow.BandOfRaises | tools/run_batch.py:83-87 | whether `_bands` raises does not depend on the band |
| CsvRow.SubField | tools/run_batch.py:102-113 | `sr.get(key, "")` of a dict, `""` otherwise |
| CsvRow.Flag | tools/run_batch.py:116-117 | `str(bool(v))` is `"True"` or `"False"`, and `"True"` exactly when `v` is truthy |
| CsvRow.Texts | tools/run_batch.py:119 | the texts of a list of strings, in order |
| CsvRow.JoinNotes | tools/run_batch.py:119 | a list of strings is joined with a vertical bar between spaces. A list holding a non-string raises `TypeError`. A truthy non-list is kept, and a falsy one becomes `""` |
| CsvRow.JoinNotesPair | tools/run_batch.py:119 | joining two, one and no notes |
| CsvRow.Convert | tools/run_batch.py:97-136 | only the notes columns and the tolerance columns can raise, and a tolerance column holds a string |
| CsvRow.Cell | tools/run_batch.py:94-136 | every cell except the notes and tolerances is computed without an exception |
| CsvRow.RowError | tools/run_batch.py:118-136 | the row raises only `TypeError` or `AttributeError` |
| CsvRow.TolCell | tools/run_batch.py:126-132 | column `Tol_<table>_<band>` is `_bands` of its table and band, raising when it does |
| CsvRow.RowBuilt | tools/run_batch.py:89-139 | when neither the notes nor the tables raise, the row is built |
| CsvRow.RowErrorCells | tools/run_batch.py:93-136 | the row raises exactly when one of its cells does |
| CsvRow.RowErrorCell | tools/run_batch.py:93-136 | the row's exception is a cell's |
| CsvRow.CellsOk | tools/run_batch.py:93-136 | without an exception of the row, no cell raises |
| CsvRow.RowSpec | tools/run_batch.py:89-139 | an empty dict gives the blank row. Otherwise the row raises exactly when a cell does, and only `TypeError` or `AttributeError`. A row holds the fields of `CSV_FIELDS` in order |
| CsvRow.BlankRow | tools/run_batch.py:90-91 | the row for a falsy record is every field of `CSV_FIELDS` with `""` |
| CsvRow.FullRow | tools/run_batch.py:138 | every field of `CSV_FIELDS`, in order, holds its cell |
| CsvRow.FilledPut | tools/run_batch.py:93-136 | storing a cell in the row keeps every column holding its cell |
| CsvRow.CellHead | tools/run_batch.py:94-98 | the file name, and `get("Drawing_Number", "")` and `get("Revision", "")` |
| CsvRow.CellRoughness | tools/run_batch.py:101-105 | the four roughness columns read the sub-fields of `sr or {}` |
| CsvRow.CellGdt | tools/run_batch.py:108-111 | the geometrical columns read `standard` and `scope` |
| CsvRow.CellDim | tools/run_batch.py:109-113 | the dimensional columns read `standard` and `scope` |
| CsvRow.CellFlags | tools/run_batch.py:116-117 | the flag columns are `str(bool(get(key, False)))` |
| CsvRow.CellWeld | tools/run_batch.py:120-121 | `get(key, "") or ""` for the designation and the finish |
| CsvRow.CellMaterial | tools/run_batch.py:122-123 | `get(key, "") or ""` for post-treatment and grade |
| CsvRow.CellNotes | tools/run_batch.py:118-136 | the notes columns join `get(key, [])` |
| CsvRow.FilledHead | tools/run_batch.py:94-98 | the first three assignments store their cells |
| CsvRow.FilledRoughness | tools/run_batch.py:101-105 | the roughness assignments store their cells |
| CsvRow.FilledStandards | tools/run_batch.py:108-113 | the standards assignments store their cells |
| CsvRow.FilledFlags | tools/run_batch.py:116-117 | the flag assignments store their cells |
| CsvRow.FilledWeldingNotes | tools/run_batch.py:118-119 | the welding-notes assignment stores its cell |
| CsvRow.FilledTexts | tools/run_batch.py:120-123 | the four text assignments store their cells |
| CsvRow.FilledBand | tools/run_batch.py:129-132 | one pass of the band loop stores its three cells |
| CsvRow.FilledNotes | tools/run_batch.py:135-136 | the notes assignment stores its cell |
| CsvRow.CoversPlain | tools/run_batch.py:93-123 | the plain assignments cover the columns before the tolerances |
| CsvRow.CoversBand | tools/run_batch.py:129-132 | each pass of the band loop covers its band's three columns |
| CsvRow.CoversAll | tools/run_batch.py:93-136 | after the band loop and the notes, the row holds every column |
| CsvRow.BlankRowLoop | tools/run_batch.py:90-91 | the comprehension computes the blank row |
| CsvRow.PrepareCsvRow | tools/run_batch.py:89-139 | the method filling `row` assignment by assignment computes `prepare_csv_row`, exceptions included |
| CsvRow.TolerancesAndNotes | tools/run_batch.py:126-139 | the band loop, the notes and the final row compute the rest of the row |
| CsvRow.NotesDecide | tools/run_batch.py:135-136 | after the tables, the row raises exactly when the notes do |
| CsvRow.BandLoop | tools/run_batch.py:129-132 | the band loop raises the row's exception, or fills all twelve tolerance cells |
| CsvRow.FinalRow | tools/run_batch.py:138-139 | `{field: row.get(field, "") for field in CSV_FIELDS}` is the row |
| CsvRow.RowEntries | tools/run_batch.py:138 | the final comprehension lists every field of `CSV_FIELDS`, in order, with its value |
| CsvRow.FilledFull | tools/run_batch.py:138 | a complete row lists every cell in `CSV_FIELDS` order |
| CsvRow.TableRaises | tools/run_batch.py:129-132 | a table whose bands are a truthy non-dict makes the row raise `AttributeError` |
| CsvRow.BandsNoRaise | tools/run_batch.py:129-132 | a band pass that does not raise means no table raises |
| CsvRow.RowKeys | tools/run_batch.py:138-139 | the row has exactly the keys of `CSV_FIELDS`, in order |
| CsvRow.EmptyDictRow | tools/run_batch.py:90-91 | a falsy record gives every field `""`, `PDF_Filename` included |
| CsvRow.RowColumn | tools/run_batch.py:93-139 | each column of a built row holds its cell under its header, and `PDF_Filename` holds the file name |
| CsvRow.FlagCells | tools/run_batch.py:116-117 | the flag columns are exactly `"True"` or `"False"`, `"True"` exactly when the value is present and truthy |
| CsvRow.NonePassesThrough | tools/run_batch.py:97-98 | a stored `None` drawing number or revision is passed through; a missing one gives `""` |
| CsvRow.NoneBecomesEmpty | tools/run_batch.py:120-123 | `None` becomes `""` in the designation, finish, post-treatment and grade columns |
| CsvRow.Blank | tools/run_batch.py:74 | a blank value is falsy |
| CsvRow.NoRelevantData | tools/run_batch.py:73-76 | no relevant data exactly when every value under a target key is blank; the `not extracted_data` test is subsumed, since `all` of nothing holds |
| CsvRow.BlankValues | tools/run_batch.py:73-76 | a value is blank exactly when it is `None`, `[]` or `""`; `False`, `0` and `{}` are not blank |
| CsvRow.RecordNoData | tools/run_batch.py:73-76 | a record has no relevant data exactly when every target field is blank |
| CsvRow.FalseFlagIsData | tools/run_batch.py:73-76 | a record with a `False` flag is never "no data" |
| CsvRow.FieldIsData | tools/run_batch.py:73-76 | one non-blank field makes the record relevant |
| RecordRows.EmptyResultNoData | src/llm_extractor.py:273-275 | `empty_result` has no relevant data, so the batch runner skips it |
| RecordRows.DictField | tools/run_batch.py:97-136 | reading a field's name from a record's dict gives the field |
| RecordRows.NormalizedTable | tools/run_batch.py:83-87 | `_bands` never raises on a table `_normalize` leaves |
| RecordRows.NormalizedWeldingNotes | tools/run_batch.py:118-119 | joining welding notes `_normalize` leaves never raises |
| RecordRows.TableField | tools/run_batch.py:126-128 | each table column group reads its table's field |
| RecordRows.NormalizedTables | tools/run_batch.py:126-132 | no table of a normalised record makes the row raise |
| RecordRows.NormalizedReady | src/llm_extractor.py:140-263 | a normalised record is ready for its row |
| RecordRows.ReadyDict | tools/run_batch.py:89-136 | the dict of such a record is non-empty, its welding notes and tables do not raise, and its notes are the record's |
| RecordRows.RowOfReady | tools/run_batch.py:89-139 | such a record's row is built exactly when its notes join, and raises `TypeError` otherwise |
| RecordRows.RowOfNormalized | tools/run_batch.py:89-139 | the row of a normalised record whose notes are strings is built |
| RecordRows.NumberNoteRaises | tools/run_batch.py:135-136 | a note the model gives as a number makes even a normalised record's row raise `TypeError` |
| ClientProfile.MergeValue | src/client_profile.py:28-31 | a client value that is no dict, or meets no dict, replaces the base value |
| ClientProfile.MergeStep | src/client_profile.py:27-31 | one pass of the loop sets that key to its merged value and changes no other key |
| ClientProfile.Merge | src/client_profile.py:27-31 | the merged mapping keeps every key of the base and has every key of the client |
| ClientProfile.MergeGet | src/client_profile.py:21-31 | the merged keys are the union of both key sets, base keys keeping their places. A client key gets its merged value, and every other key keeps its base value |
| ClientProfile.BaseOnlyKept | src/client_profile.py:21-31 | a key only in the base keeps its base value |
| ClientProfile.ClientReplaces | src/client_profile.py:30-31 | otherwise the client value replaces the base value, a dict included |
| ClientProfile.DictsMerged | src/client_profile.py:28-29 | two dicts merge: the inner keys of both, the client's inner values winning |
| ClientProfile.OneLevelDeep | src/client_profile.py:29 | a nested dict of the client replaces the base's nested dict wholesale |
| ClientProfile.MergeEmpty | src/client_profile.py:21-31 | the merged mapping is empty exactly when both mappings are |
| ClientProfile.ClientName | src/client_profile.py:20 | the client name is empty exactly when `CLIENT` is blank |
| ClientProfile.ProfileText | src/client_profile.py:33-35 | `""` exactly when the merged mapping is empty |
| ClientProfile.LoadProfile | src/client_profile.py:19-35 | the method computes the text of the merged profile, `""` exactly when it is empty |
| ClientProfile.MergedProfile | src/client_profile.py:19-31 | with `CLIENT` blank, the base. Otherwise every key of the base, and, when the client has a profile, every key of its mapping |
| ClientProfile.BlankClient | src/client_profile.py:20-23 | with `CLIENT` blank, the profile is the base |
| ClientProfile.EmptyProfile | src/client_profile.py:19-35 | the text is `""` exactly when the base is empty and no non-empty client mapping is merged |

## Behaviour kept as written

The model keeps these behaviours of the code as they are:

- An all-empty bands table is kept as `{"unit": ..., "bands": {}}`. It is not nulled
  (src/llm_extractor.py:138, 245).
- Falsy `Welding_Notes` stay as they are (`None` included); they are not made `[]`
  (src/llm_extractor.py:177).
- Blank input to `_coerce_json` gives `{}`. It does not raise
  (src/llm_extractor.py:67-70).
- Only an exception leads to a sleep. A raising third attempt sleeps too, so three
  failures give three sleeps, not two (src/llm_extractor.py:341-343;
  `Orchestrator.AllRaise`).
- A grade promoted from `Post_Treatment` is kept as matched. An inferred grade is
  upper-cased and its spaces removed (src/llm_extractor.py:164, 173;
  `Normalize.NormalizeGrade`).
- `_norm_pm` is not idempotent. On `"1,2,3"` the first pass gives `"1.2,3"`, because
  the search resumes after the digits it consumed. `norm_table` re-applies it to bands
  `_normalize_tables` already normalised, so `_normalize` is not idempotent on such
  bands (`ExtractorHelpers.DoubleNormBands`).
- `_normalize` raises on some inputs instead of degrading:
  - `TypeError` on a truthy non-string post-treatment or designation, or on welding
    notes that cannot be iterated;
  - `AttributeError` on truthy non-dict bands, or on a non-dict `data`.
  
  The retry loop treats these like any other exception.
- `prepare_csv_row` raises `TypeError` on notes holding a non-string
  (`RecordRows.NumberNoteRaises`).

## Left out

- Regular expressions are not modelled by a general engine. Each fixed pattern is a
  hand-written recogniser in `Patterns`:
  - `\b` is taken over `[A-Za-z0-9_]`;
  - `\s` is `str.isspace()` restricted to the characters `IsSpace` lists;
  - `re.I`, `lower()` and `upper()` are ASCII case mapping;
  - `\d` is an ASCII digit, where Python's `\d` also matches other Unicode digits;
  - non-ASCII letters count as non-word characters.
  
  Quirks of the patterns are kept as they are: `"Revisie: B"` yields `"isie"`, and the
  paper sizes `A2`/`A4` match the grade pattern.
- `json.loads` is a parameter (`parse`) that is taken to return a value or fail. The
  JSON grammar, and the text of `JSONDecodeError`, are not modelled.
- `genai.configure`, `GenerativeModel` and `generate_content` are not modelled: the
  model's reply on each attempt is an input (`Env.reply`). The response attribute
  probing (`prompt_feedback`, `candidates`, `parts`) is reduced to the `Reply`
  datatype.
- Logging (loguru), `last_err` and the log messages are left out because they do not
  affect the result.
- `time.sleep` is recorded as a `Sleep(tenths)` event, since floating point is not
  modelled.
- Prompt text: `SYSTEM_INSTRUCTIONS` and the template's `substitute` are parameters.
  `load_profile()` inside the extractor is a parameter that may fail.
- `src/prompt_templates.py` defines `EXTRACT_DATA_PROMPT`, while the extractor imports
  `EXTRACT_DATA_PROMPT_TEMPLATE` (src/llm_extractor.py:15). That import failure is not
  modelled.
- `src/ocr_utils.py`, `src/xml_generator.py`, `config.py` and `main.py` are not part
  of this model: they are OCR, file output and configuration.
- The I/O of `tools/run_batch.py` is left out:
  - `process_directory_for_csv` and `process_specific_order_for_csv`;
  - the OCR and LLM calls of `process_single_pdf`;
  - the CSV writer.
  
  Only its emptiness test is modelled, as `CsvRow.NoRelevantData`.
- `pdf_path.name` is the parameter `name`.
- The I/O of `load_profile` is left out: `_read_yaml`, the files and `os.getenv`. Their
  results are parameters, a missing file or variable reading as `{}` or `""`. A YAML
  document that is not a mapping is not modelled.
- ClientProfile.LoadProfile: aliasing is not modelled. `merged[k].update(v)`
  mutates the base's nested dict in place. The model returns the merged value and
  leaves the base untouched.
- JsonValue.Dumps: the text of numbers is Python's `str()` text, not `json.dumps`'s.
  Non-string dict keys are not modelled, since every key is a string.
- JsonValue.Repr: Python's `repr` picks double quotes for a string holding a single
  quote, and escapes backslashes, quotes and control characters. The model always
  uses single quotes and never escapes.
- JsonValue.PyStr: it inherits the quoting and escaping of `JsonValue.Repr` for
  lists and dicts.
- Numbers are kept as their Python text (`JNum`), since no arithmetic is done on them.
- Dict key order is modelled as insertion order, like Python's.
- Pick: the source has no caller of `_pick`; it is modelled on its own.
