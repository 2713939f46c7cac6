# LLM-RAG function executor, modelled in Dafny

The system serves a natural-language "do this" request in five steps:

- It searches a vector index of automation functions for the best match.
- It reads the parameters off the matched function's signature.
- It pulls values for those parameters out of the prompt with three fixed phrase patterns.
- It renders a Python script that calls the function with those values.
- Optionally it runs the function with explicit keyword arguments, and it records the turn in a per-session history.

This project models that core and proves its properties.

Modules, following the program's structure:

- `Wrappers`, `Text`, `Dicts`, `Values`: shared vocabulary.
  - `Option`.
  - Python's `str` operations: `isspace`, `strip`, `lower`, `capitalize`, `isdigit`, `find`, `split`, `join`.
  - An insertion-ordered dict, modelled as a list of pairs with assignment.
  - The Python values the components pass around.
- `Patterns`: `re.search(..., re.IGNORECASE).group(1)` for the three phrase patterns of the parameter extractor.
  - It is a backtracking matcher in Python's order: greedy `\s+` gives back one character at a time, alternatives are tried left to right, an optional group is tried before it is skipped, and start positions are tried left to right.
- `CodeGenerator` (app/services/code_generator.py):
  - the signature splitter, as loop methods proved against specification functions;
  - the parameter record builder;
  - the extraction loop with break-on-first-match;
  - the argument renderer;
  - the script template.
- `Context` (app/services/context.py): the class `SessionContext`.
  - Its fields are the session id, `max_history`, the history and the data map.
  - A ghost field `saved` stands for the session file on disk. The loader reads it; every mutating method brings it up to date.
- `Registry` (app/services/registry.py): the class `FunctionRegistry`.
  - Nested population loops over the three modules.
  - The id, private-name and description rules.
  - The fixed result shapes of `execute_function`.
- `Llm` (app/services/llm.py): the generation prompt and the code-fence extraction. The language model is any function from prompt to response.
- `Api` (app/main.py): the class `App`.
  - It holds the global session map and the registry.
  - It models `get_session`, the `/execute` body, `/functions` and `/health`.

Inputs that stand for external systems:

| external | input |
|---|---|
| vector search | `search` |
| language model | `generate` |
| `datetime.now()` | `now` and `stamp` |
| `fromisoformat(...).strftime('%H:%M:%S')` | `clock` |
| `uuid4` | `uuid` |
| session file contents | `stored` |
| the functions of the action modules | the `call` field of `Fn` |

Where the behavioural description of the system and the code differ, the model follows the code:

- A phrase such as "… set to report.txt" does not bind a `filename` parameter. The third pattern needs `set <name> to`.
- A captured value stops at the first `.`, so `report.txt` would bind as `report`.
- The 404 raised for a search without hits is caught by the endpoint's catch-all. It reaches the client as a 500 whose detail is `404: No matching function found`.

## Model

| member | source | states |
|---|---|---|
| CodeGenerator.ParamText | app/services/code_generator.py:64 | the text after the first `(` up to the last `)` after it, or all of it when there is none |
| CodeGenerator.Parameters | app/services/code_generator.py:59-103 | no `(` or no `)`, or only whitespace between them, gives no parameters; otherwise one record per kept piece, in order |
| CodeGenerator.Run | app/services/code_generator.py:71-83 | the splitter's depth moves by the parenthesis balance; every kept piece is non-blank and stripped |
| CodeGenerator.Pieces | app/services/code_generator.py:71-83 | every piece the splitter keeps is non-blank and stripped |
| CodeGenerator.RunAppend | app/services/code_generator.py:73-83 | running the splitter over `a + b` is running it over `a`, then over `b` |
| CodeGenerator.RunNoSplit | app/services/code_generator.py:73-83 | text with no comma at depth 0 is only appended to the current piece |
| CodeGenerator.PiecesSplit | app/services/code_generator.py:71-83 | a comma at depth 0 ends a piece, kept only when not blank; splitting goes on after it |
| CodeGenerator.PiecesLast | app/services/code_generator.py:71-83 | a balanced last stretch without depth-0 commas is the last piece |
| CodeGenerator.PiecesUnterminated | app/services/code_generator.py:71-83 | a last stretch whose depth does not return to 0 is dropped |
| CodeGenerator.ParenGroup | app/services/code_generator.py:74-82 | the commas inside a parenthesised argument list are at depth 1 and do not split |
| CodeGenerator.NestedPieces | app/services/code_generator.py:71-83 | `a, d=f(a, b)` splits into `a` and `d=f(a, b)` |
| CodeGenerator.PiecesJoin | app/services/code_generator.py:71-83 | flat, stripped, non-blank pieces joined by `", "` split back into the same pieces, in order |
| CodeGenerator.SplitPieces | app/services/code_generator.py:71-83 | the character loop with its depth counter computes the specified pieces |
| CodeGenerator.DropHint | app/services/code_generator.py:94-95 | the name cut at its first `:` and stripped has no `:` and only characters of the name |
| CodeGenerator.ParseParam | app/services/code_generator.py:88-101 | has_default exactly when the piece has `=`; the name is the stripped text before the first `=`, cut at `:`; the default is the stripped text after it, else None |
| CodeGenerator.ParseAll | app/services/code_generator.py:86-103 | one record per piece, in order |
| CodeGenerator.ProcessPieces | app/services/code_generator.py:86-103 | the processing loop builds exactly the records of the pieces, in order |
| CodeGenerator.ParseParameters | app/services/code_generator.py:59-103 | the method returns the specified parameters, including both empty cases |
| CodeGenerator.NamePart | app/services/code_generator.py:90-95 | a type hint after `:` is cut off the name |
| CodeGenerator.ParsePlain | app/services/code_generator.py:88-101 | `name` reads back as a parameter without a default |
| CodeGenerator.ParseHinted | app/services/code_generator.py:88-101 | `name: hint` reads back as `name` without a default |
| CodeGenerator.ParseDefaulted | app/services/code_generator.py:88-101 | `name=default` reads back with that default |
| CodeGenerator.ParseHintedDefaulted | app/services/code_generator.py:88-101 | `name: hint = default` reads back as `name` with that default |
| CodeGenerator.ParseShown | app/services/code_generator.py:88-101 | each of the four shapes `inspect.signature` shows reads back as its name, whether it has a default, and the default |
| CodeGenerator.ShownShape | app/services/code_generator.py:71-83 | the shown text of a parameter is non-blank, stripped and has no comma or parenthesis |
| CodeGenerator.ShownBody | app/services/code_generator.py:63-83 | shown parameters joined by `", "` split back into the shown parameters and are not blank |
| CodeGenerator.ParametersOfShown | app/services/code_generator.py:59-103 | round trip: parsing `(p1, p2, ...) -> ret` gives back the declared parameters, in order |
| CodeGenerator.ParamTextOf | app/services/code_generator.py:63-64 | the parameter text of `(body)ret` is `body` |
| CodeGenerator.FirstMatch | app/services/code_generator.py:126-130 | the pattern loop with `break` returns the first pattern's stripped capture |
| CodeGenerator.FirstBind | app/services/code_generator.py:126-130 | nothing is bound exactly when no pattern matches; a bound value is stripped and has no `,` or `.` |
| CodeGenerator.FirstBindDecides | app/services/code_generator.py:126-130 | the first pattern that matches decides, with its stripped capture |
| CodeGenerator.FirstBindThird | app/services/code_generator.py:126-130 | when the first two patterns miss, the third pattern's capture is bound |
| CodeGenerator.Bind | app/services/code_generator.py:119-130 | the value bound for a name through its three patterns is stripped and has no `,` or `.` |
| CodeGenerator.Bindings | app/services/code_generator.py:113-130 | the assignments made are for parameter names other than `self`, each holding the value its patterns bind |
| CodeGenerator.Names | app/services/code_generator.py:114 | the names of the parameter records, in order |
| CodeGenerator.BindingsComplete | app/services/code_generator.py:113-130 | every parameter other than `self` whose patterns match is assigned |
| CodeGenerator.BindingsSnoc | app/services/code_generator.py:113-130 | one more parameter appends its binding, when it has one and is not `self` |
| CodeGenerator.ExtractParameterValues | app/services/code_generator.py:105-132 | the nested loop with `break` computes the specified extraction |
| CodeGenerator.ExtractedGet | app/services/code_generator.py:109-130 | a key holds a value exactly when the input is truthy, the key is a parameter name other than `self` and its patterns bind; it holds that value; empty input or no parameters give nothing |
| CodeGenerator.SetCountSearches | app/services/code_generator.py:120-127 | for "set count to 5" the first two patterns miss and the third captures `5` |
| CodeGenerator.SetCountBinds | app/services/code_generator.py:120-130 | "set count to 5" binds `count` to `5`, through the third pattern |
| CodeGenerator.SetCountBindings | app/services/code_generator.py:113-130 | the extraction loop makes the single assignment `count = 5` |
| CodeGenerator.ArgumentsDigits | app/services/code_generator.py:139-140 | a single all-digit value renders as `name=value` |
| CodeGenerator.SetCountArguments | app/services/code_generator.py:105-146 | that request renders the argument `count=5`, unquoted |
| CodeGenerator.CapitalizeKeyword | app/services/code_generator.py:141-142 | `capitalize` of a case variant of true/false/none is `True`/`False`/`None` |
| CodeGenerator.RenderArg | app/services/code_generator.py:139-144 | digits bare; true/false/none in any case as `True`/`False`/`None`; anything else in double quotes, unescaped |
| CodeGenerator.RenderAll | app/services/code_generator.py:136-144 | one rendered argument per pair, in insertion order |
| CodeGenerator.Arguments | app/services/code_generator.py:134-146 | an empty map gives ""; otherwise the text starts with the first pair rendered |
| CodeGenerator.ArgumentsMention | app/services/code_generator.py:136-146 | every pair appears rendered in the argument text |
| CodeGenerator.FormatArguments | app/services/code_generator.py:134-146 | the rendering loop computes the specified argument text |
| CodeGenerator.TemplateLines | app/services/code_generator.py:30-56 | the script template has 26 lines, including the stray `"` line where the raw string begins |
| CodeGenerator.CodeHasLine | app/services/code_generator.py:30-56 | every template line occurs in the script |
| CodeGenerator.CodeImports | app/services/code_generator.py:30 | the script starts with `from app.functions.<module> import <name>` |
| CodeGenerator.CodeCalls | app/services/code_generator.py:35 | the script contains `result = <name>(<args>)` |
| CodeGenerator.StatusPlaceholder | app/services/code_generator.py:43 | `{status}` appears literally |
| CodeGenerator.ItemPlaceholders | app/services/code_generator.py:47 | `{key}` and `{value}` appear literally |
| CodeGenerator.ResultPlaceholder | app/services/code_generator.py:49 | `{result}` appears literally |
| CodeGenerator.ErrorPlaceholder | app/services/code_generator.py:52 | `{e}` appears literally |
| CodeGenerator.CodePlaceholders | app/services/code_generator.py:42-52 | the raw part is not interpolated: `{status}`, `{key}`, `{value}`, `{result}` and `{e}` appear literally |
| CodeGenerator.GenerateFunctionCode | app/services/code_generator.py:9-57 | the script is the template filled with the arguments extracted from the prompt for the parameters of the signature, and starts with the import line |
| Patterns.BlankRun | app/services/code_generator.py:121-123 | the longest whitespace run at a position |
| Patterns.MatchNodes | app/services/code_generator.py:121-127 | a successful path ends where a capturable character starts the capture |
| Patterns.CaptureEnd | app/services/code_generator.py:121-123 | greedy `[^,\.]+` stops at the first `,` or `.` or at the end |
| Patterns.Search | app/services/code_generator.py:127-129 | `group(1)` is non-empty and has no `,` or `.` |
| Patterns.SearchNone | app/services/code_generator.py:127 | no start position matching means no match |
| Patterns.SearchFirst | app/services/code_generator.py:127 | the leftmost start position that matches decides the capture |
| Patterns.WordAtFirst | app/services/code_generator.py:127 | a case-insensitive word match fixes the first character up to ASCII case |
| Patterns.BranchesStart | app/services/code_generator.py:121-123 | a group of words matches only where one of its words does |
| Patterns.WithPatternStart | app/services/code_generator.py:121 | a match of the first pattern starts with `with`, `using` or `for` |
| Patterns.IsPatternStart | app/services/code_generator.py:122 | a match of the second pattern starts with the parameter name |
| Patterns.SetPatternStart | app/services/code_generator.py:123 | a match of the third pattern starts with `set` or `using` |
| Patterns.OneBlankStep | app/services/code_generator.py:121-123 | `\s+` before a single blank goes on right after it |
| Patterns.TwoBlanksStep | app/services/code_generator.py:121 | `\s+` before two blanks gives one back when the rest fails after both |
| Patterns.PhrasePatterns | app/services/code_generator.py:120-124 | there are three patterns, tried in the source's order |
| Patterns.SetCountSetFive | app/services/code_generator.py:123-129 | the third pattern captures `5` in "set count to 5" |
| Patterns.SetCountWithNone | app/services/code_generator.py:121-127 | the first pattern does not match "set count to 5" |
| Patterns.SetCountIsNone | app/services/code_generator.py:122-127 | the second pattern does not match "set count to 5" |
| Patterns.UrlOneBlankNone | app/services/code_generator.py:121 | without a connector, "with url x" does not match the first pattern: one blank is not enough |
| Patterns.UrlTwoBlanks | app/services/code_generator.py:121 | "with url  x", with two blanks, matches and captures `x` |
| Context.LoadedHistory | app/services/context.py:29-40 | the saved history when the file has one, else empty |
| Context.LoadedData | app/services/context.py:29-40 | the saved data when the file has some, else empty |
| Context.SessionContext.constructor | app/services/context.py:6-17 | a missing or empty id becomes `session_<stamp>`; max_history as given; history and data as loaded, empty when nothing loads |
| Context.SliceStart | app/services/context.py:72 | where Python's `h[start:]` begins for a negative or non-negative start |
| Context.Bounded | app/services/context.py:70-72 | for max ≥ 1 the newest `min(n, max)` entries, in order; nothing dropped when `n ≤ max`; everything kept at max 0 |
| Context.BoundedSnoc | app/services/context.py:70-72 | trimming after each append is trimming once at the end |
| Context.AppendedKeepsNewest | app/services/context.py:70-72 | FIFO: appending one by one keeps the newest `min(n, max)` appends, in order |
| Context.ElevenAppends | app/services/context.py:70-72 | eleven appends at the default maximum of ten (context.py line 6) keep appends 2 to 11 |
| Context.SessionContext.AddInteraction | app/services/context.py:53-75 | one record with the query, the response and metadata defaulting to `{}` is appended, then trimmed; data unchanged; saved |
| Context.SessionContext.SetData | app/services/context.py:77-80 | the key now holds the value; history unchanged; saved |
| Context.Lookup | app/services/context.py:82-84 | the stored value, or the supplied default |
| Context.LookupAfterStore | app/services/context.py:77-84 | after storing, the key reads back its value and every other key is as before |
| Context.SessionContext.GetData | app/services/context.py:82-84 | the stored value, or the supplied default |
| Context.SystemLine | app/services/context.py:102-112 | a dict with `function` gives "Used function"; otherwise with `error` gives "Error"; anything else "Response provided" |
| Context.Block | app/services/context.py:98-114 | four lines, a header first and `---` last |
| Context.Blocks | app/services/context.py:96-114 | four lines per windowed interaction |
| Context.BlocksAt | app/services/context.py:96-114 | lines `4i` to `4i+3` are the block of interaction `i+1`, so blocks are numbered from 1 in window order |
| Context.Window | app/services/context.py:97 | the newest `min(n, 3)` interactions, in order |
| Context.SummaryEmpty | app/services/context.py:93-94 | the summary is "No previous interactions." exactly when the history is empty |
| Context.SummaryShape | app/services/context.py:96-116 | a non-empty summary covers the newest `min(n, 3)` interactions, four lines each, numbered from 1 |
| Context.SummaryMentionsNewest | app/services/context.py:102-116 | the newest interaction's System line appears in the summary |
| Context.SessionContext.GetContextSummary | app/services/context.py:86-116 | the loop computes the specified summary, which is the fixed sentence exactly when there is no history |
| Dicts.Get | app/services/registry.py:42 | a value exactly for a present key |
| Dicts.PutKeys | app/services/registry.py:31 | assigning keeps the key order, adding a new key at the end |
| Dicts.PutGet | app/services/registry.py:31 | the assigned key reads back its value |
| Dicts.PutOther | app/services/registry.py:31 | every other key reads back as before |
| Dicts.PutUnique | app/services/registry.py:31 | assignment never duplicates a key |
| Dicts.PutSpec | app/services/registry.py:31 | the key now holds the value, keeps its place when present, and every other key is unchanged |
| Dicts.PutAllGet | app/services/registry.py:26-31 | after the assignments a key holds the value of its last assignment |
| Dicts.PutAllKeys | app/services/registry.py:26-31 | a key is present exactly when it was before or was assigned |
| Registry.DescriptionRule | app/services/registry.py:34-35 | the first line of the stripped docstring when there is one, else `Function to ` and the name with `_` as spaces |
| Registry.RegisterRule | app/services/registry.py:29-38 | a private name registers nothing; otherwise one well-made registration under `<module>.<name>` |
| Registry.ModuleWellMade | app/services/registry.py:28-38 | every registration of a module is well made and names that module |
| Registry.RegistrationsWellMade | app/services/registry.py:26-38 | every registration is well made |
| Registry.Pairs | app/services/registry.py:31 | the id-to-function assignments, in registration order |
| Registry.PutAllConcat | app/services/registry.py:26-31 | assignments in sequence compose |
| Registry.ModuleComplete | app/services/registry.py:28-31 | every public member of a module is registered |
| Registry.RegistrationsComplete | app/services/registry.py:26-35 | every public member of every module is registered under its id and description |
| Registry.RegistrationsNext | app/services/registry.py:26-28 | the outer loop appends one module's registrations per step |
| Registry.MemberStep | app/services/registry.py:28-38 | one member extends the documents by its registration and the dict by its assignment, or leaves both for a private name |
| Registry.PopulatedNone | app/services/registry.py:26 | before any module nothing is assigned or sent |
| Registry.RegisterStep | app/services/registry.py:29-31 | one inner step assigns the member's id, or nothing for a private name |
| Registry.RegistryGet | app/services/registry.py:26-31 | the function found for an id is that of its last registration, so a repeated id overwrites; an unregistered id finds nothing |
| Registry.RegisteredIdsWellMade | app/services/registry.py:26-35 | every registered id comes from a well-made registration |
| Registry.RegistrationModule | app/services/registry.py:26-31 | a registration names one of the modules and one of its members |
| Registry.ModuleMember | app/services/registry.py:28 | a module's registrations come from its members |
| Registry.PrivateSkipped | app/services/registry.py:29 | an id `<module>._<name>` is never registered |
| Registry.RegisteredIdSplits | app/services/registry.py:31 | a registered id has one dot and splits into its module and function name |
| Registry.FunctionRegistry.constructor | app/services/registry.py:6-14 | the modules application, system, utilities in that order, then population from an empty dict |
| Registry.FunctionRegistry.Populate | app/services/registry.py:16-38 | the nested loops leave the specified dict and send the specified documents |
| Registry.FunctionRegistry.PopulateModule | app/services/registry.py:28-38 | the inner loop extends the dict and the documents by one module's registrations |
| Registry.FunctionRegistry.PopulateMember | app/services/registry.py:29-38 | one inner step: a public member is assigned under its id and its document sent; a private one changes nothing |
| Registry.FunctionRegistry.GetFunction | app/services/registry.py:40-42 | a function exactly for a registered id |
| Registry.FunctionRegistry.ExecuteFunction | app/services/registry.py:49-60 | an unknown id gives the not-found failure; a known one the call's result as success or its exception text as failure; missing arguments are empty; the keys are fixed |
| Llm.NoneBefore | app/services/llm.py:78 | before the first separator there is none |
| Llm.StripNone | app/services/llm.py:78 | stripping creates no separator |
| Llm.LastStart | app/services/llm.py:78 | the last piece begins after a separator, with none after it |
| Llm.LastPiece | app/services/llm.py:78 | `split(sep)[-1]` is a suffix with no separator, all of the text when there is none |
| Llm.FirstPiece | app/services/llm.py:78 | `split(sep)[0]` is a prefix with no separator, followed by one when there is one |
| Llm.NoPythonFence | app/services/llm.py:78 | text without a closing fence has no Python fence |
| Llm.FencedCode | app/services/llm.py:78 | the fenced code is stripped, has no fence, and is the stripped response when there are no fences |
| Llm.ExtractCode | app/services/llm.py:78-82 | non-empty fenced code is kept; otherwise the stripped response; always stripped |
| Llm.ContextLine | app/services/llm.py:63 | the context line appears only for a truthy context |
| Llm.PromptLines | app/services/llm.py:55-73 | the prompt has its 18 template lines |
| Llm.Indented | app/services/llm.py:55-73 | each line carries the template's indentation |
| Llm.PromptDescribes | app/services/llm.py:58-61 | the prompt names the function, its module, its signature and its docstring |
| Llm.PromptContext | app/services/llm.py:63 | a truthy context is quoted in the prompt |
| Llm.PromptNoContext | app/services/llm.py:63 | a falsy context gives the prompt without context |
| Llm.GenerateCode | app/services/llm.py:43-82 | the code is stripped, and is the stripped response when the response has no fence |
| Api.SessionKey | app/main.py:49-53 | the query's session id when truthy, else `session_<uuid>` |
| Api.App.GetSession | app/main.py:48-59 | an existing session is returned unchanged; a new key gets a fresh session loaded from its file; the map only grows |
| Api.EnhancedPrompt | app/main.py:73-76 | the prompt alone when the summary is empty or says there is no history; otherwise prompt, header and summary |
| Api.FreshSessionPlainPrompt | app/main.py:71-76 | a session without history searches with the bare prompt |
| Api.TopMatch | app/main.py:81-85 | no match exactly when the search result is falsy or has no first hit; otherwise `metadatas[0][0]` |
| Api.Recorded | app/main.py:98-104 | the recorded response holds the function id and the execution result |
| Api.App.RunResult | app/main.py:92-95 | execution happens only for non-empty parameters, passed as the keyword arguments |
| Api.App.Execute | app/main.py:61-115 | no hit gives a 500 with the wrapped 404 text and leaves the session as it was; a hit gives the id, the code from the original prompt, the run result and the earlier summary, and records exactly one turn |
| Api.App.Serve | app/main.py:85-112 | after a match: code from the original prompt, the run only for non-empty parameters, one appended interaction, and a summary that names the function used |
| Api.ServedTurnSummarised | app/main.py:98-104 | after a successful request the summary names the function it used |
| Api.ListingOf | app/main.py:124-135 | module and name come from splitting the id on its dot; the description follows the registry rule |
| Api.Listings | app/main.py:122-137 | one entry per registered id, in order, or a failure when some id does not split into two parts |
| Api.ListingsFail | app/main.py:124 | one id that does not split into two fails the listing |
| Api.ListingsAll | app/main.py:122-137 | entries built one by one form the listing |
| Api.App.ListFunctions | app/main.py:117-137 | the loop computes the specified listing |
| Api.ListingOfPopulated | app/main.py:122-135 | with dot-free names, the listing of a populated registry succeeds and names registered modules and functions |
| Api.HealthCheck | app/main.py:139-144 | the constant `{"status": "healthy", "version": "1.0.0"}` |

## Left out

- Vector search, embeddings and the vector store are not modelled. Search is an input function from prompt to result. This also covers the collection reset at app/services/registry.py:18-23.
- The documents sent to the vector index are kept as `indexed`. Only the id, name, function, description and module name of each are modelled.
- Language-model inference (`generate_response`) is not modelled. It is the opaque `generate` input.
- The action modules' functions are not modelled. Their behaviour is the `call` field of `Fn` (returns a value or raises). Side effects on the machine are not modelled.
- Disk I/O of sessions is replaced by the ghost snapshot `saved`, which covers `json.load`, `json.dump` and `os.makedirs`.
- A failing `json.dump` is not modelled. In the source it would raise after the history was already changed.
- `datetime.now`, `fromisoformat`/`strftime` and `uuid4` are opaque inputs. A history timestamp that `fromisoformat` rejects is not modelled.
- Exceptions other than the search miss are not modelled: a metadata key missing, or a stored interaction without `timestamp`, `user_query` or `response`. In the source these reach the catch-all of `/execute`.
- `Patterns.WordAt`: case-insensitive matching covers ASCII case only. Python also folds a few non-ASCII letters (the Kelvin sign, the long s); that is left out.
- `Text.IsDigits`: `str.isdigit` is modelled on ASCII digits only.
- Parameter names are inserted into the regular expressions literally. A name holding regex metacharacters is not modelled.
- `Values.Show`: a dict value is shown as a fixed placeholder, not as Python's `repr` of the dict.
- FastAPI wiring, CORS, response validation and uvicorn start-up are not modelled. HTTP status codes are modelled only as the number in `Failed`.
- Concurrent requests are not modelled. The source has no locking around the global session map.
- Logging is not modelled.
- Whether the generated script is valid Python is not modelled. The template is text only, so its stray `"` line is kept as it is.
