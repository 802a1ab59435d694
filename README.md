# spring-cli scaffolder: the string and path core

`spring-cli generate <appName> <name>` writes five Java source files for an
entity `name` in the module `appName` (for example `com.example.shop`).
This project models the part of `index.js` that decides what those files
are called, where they go and what they contain, and proves properties of it:

- `Text`: substring search (`String.prototype.includes`) and ASCII case mapping of one character.
- `Names`: `capitalizeFirstLetter` and `toCamelCase`. It also holds the conversion of the module path into a directory path (`/`, `\` and `.` become the separator) and back into dots for the templates.
- `Render`: `replacePlaceholders`, three global literal replacements in the order `{{name}}`, `{{nameCamelCase}}`, `{{appName}}`. A piece-based reading of templates proves what the renderer does: a template is a sequence of literal chunks and placeholder tokens.
- `Paths`: `getBaseDir` with the working directory as a parameter. It also holds `path.join` of clean segments, `path.dirname`, and the directories that `mkdirSync(…, { recursive: true })` creates.
- `FilePlan`: the fixed five-entry `filesToGenerate` table.
- `Files`: the file system as a class whose state is a map from path to contents plus a set of directories.
- `Generator`: `generateFiles` as a method. It builds the plan, logs the preview, stops if the user declines, and otherwise makes each directory and writes each rendered template in turn.

The separator is fixed to the POSIX `/`.

Two behaviours of the code are kept as written, though a reader may not expect them:

- Output file names use the raw `name` (index.js:65-81), not the capitalised one. For `order` the service implementation is written to `…/service/impl/orderServiceImpl.java`, but the class it declares is `OrderServiceImpl` (`FilePlan.ServiceImplFileNameIsRaw`, `Generator.OrderServiceImplClassLine`).
- The base-directory rules are plain substring tests (index.js:38-46), not path-segment tests. A working directory such as `/home/srcery` counts as "inside `src`".

## Model

| member | source | states |
|---|---|---|
| Text.Contains | index.js:38-44 | `includes`: a prefix occurrence is found, and a found pattern is no longer than the text. |
| Text.ContainsAt | index.js:38-44 | `Contains` holds exactly when the pattern occurs at some offset of the text. |
| Text.ToUpper | index.js:12 | The ASCII `toUpperCase` of one character: lower-case letters move up by 32 and become upper case, and every other character stays. |
| Text.ToLower | index.js:16 | The ASCII `toLowerCase` of one character: upper-case letters move down by 32 and become lower case, and every other character stays. |
| Names.CapitalizeFirstLetter | index.js:11-12 | Keeps the length. Character 0 is no longer lower case and has the same letter. Every later character is unchanged. The empty name maps to the empty name. |
| Names.ToCamelCase | index.js:15-16 | Keeps the length. Character 0 is no longer upper case and has the same letter. Every later character is unchanged. |
| Names.CaseHelpersIdempotent | index.js:11-16 | Both helpers are idempotent. |
| Names.CaseHelpersAbsorb | index.js:11-20 | Camel-casing the capitalised name gives the camel-cased raw name, and the converse holds. So the `{{nameCamelCase}}` value is the raw name with character 0 lower-cased. |
| Names.ReplaceChars | index.js:57-59 | A one-character-class global replace keeps the length, and position by position maps exactly the characters of the class to the separator. |
| Names.NormalizeAppName | index.js:57-59 | Keeps the length. Exactly the characters `/`, `\` and `.` become `/`, and all others stay. |
| Names.DottedAppName | index.js:120 | Keeps the length and leaves no `/` or `\`. Position by position, exactly the separators become `.`. |
| Names.DottedRoundTrip | index.js:120 | Normalising and converting back turns every separator into a dot. The result equals the module path exactly when the module path has no `/` and no `\`. |
| Names.NoNewCharacters | index.js:117-121 | Case mapping and separator conversion introduce no character that is not a letter, a dot or a separator (used for `$`). |
| Render.ReplaceAll | index.js:22-24 | Text that does not contain the pattern comes back unchanged. Replacing a pattern by itself changes nothing. |
| Render.PassUnmatched | index.js:22-24 | A replacement pass copies a prefix at none of whose positions a match starts, and continues after it. |
| Render.ReplacePlaceholders | index.js:19-25 | Content without `{{` comes back unchanged. |
| Render.NoTokenWithoutBraces | index.js:22-24 | Content without `{{` contains none of the three tokens. |
| Render.RenderFillsTemplate | index.js:19-25 | For a template of plain literal chunks and tokens, and plain values, the three successive passes equal substituting every token at once. `{{name}}` gets the name, `{{nameCamelCase}}` gets its camel case, and `{{appName}}` gets the module path. |
| Render.RenderLeavesNoToken | index.js:19-25 | Under those conditions the rendered text contains no `{{` at all, and so none of the three tokens. |
| Render.TokenCanReappear | index.js:19-25 | With `{{n{{name}}e}}`, name `am` and app `x`, neither value contains `{{`, yet the result is `{{name}}`. The first pass spells a new token that no later pass removes. |
| Render.FirstStepSpellsToken | index.js:22 | The `{{name}}` pass turns `{{n{{name}}e}}` into `{{name}}` for the value `am`. |
| Render.PassPlain | index.js:22-24 | A pass copies a plain prefix unchanged and continues after it. |
| Render.SkipOtherToken | index.js:22-24 | A pass for one token copies each of the other two tokens unchanged. |
| Render.ReplaceAllPieces | index.js:22-24 | One pass over a piece template replaces exactly the tokens of its kind and keeps the literals plain. |
| Render.SubstAllIsFill | index.js:21-24 | Substituting the three kinds one after another equals filling all tokens at once. |
| Render.FillPlain | index.js:19-25 | Filling a plain template with plain values gives plain text. |
| Render.RenderOneToken | index.js:19-25 | A line with one token between plain text renders to the text around the token's value. |
| Render.RenderTwoTokens | index.js:19-25 | A line with two tokens renders to the plain text with both values in place. |
| Paths.Join | index.js:40-81 | `path.join` of two clean segments: the first segment, one `/`, then the second. |
| Paths.GetBaseDir | index.js:30-53 | Whichever rule applies, the base directory lies under `cwd/` and ends with the normalised module path. |
| Paths.BaseDirRuleJavaRoot | index.js:38-40 | If `cwd` contains `src/main/java`, the base is `cwd/<app>`. |
| Paths.BaseDirRuleSrc | index.js:41-43 | If `cwd` contains `src` but not `src/main/java`, the base is `cwd/main/java/<app>`. |
| Paths.BaseDirRuleElsewhere | index.js:47-50 | If `cwd` does not contain `src`, the base is `cwd/src/main/java/<app>`. |
| Paths.SrcMainRuleUnreachable | index.js:41-46 | Containing `src/main` implies containing `src`, so the `src/main` branch never runs. |
| Paths.BaseDirInJavaRoot | index.js:38-40 | A `cwd` ending in `src/main/java` gives `cwd/<app>`. |
| Paths.BaseDirInSrc | index.js:41-43 | A `cwd` ending in `src`, with no `src/main/java` in it, gives `cwd/main/java/<app>`. |
| Paths.LastSlashIsLast | index.js:111 | No separator follows the one `path.dirname` cuts at. |
| Paths.Dirname | index.js:111 | `path.dirname` is never empty. When a separator follows position 0, it is everything before the last one. |
| Paths.DirnameOfJoin | index.js:111 | The parent of `dir/leaf` is `dir` when `leaf` has no separator. |
| Paths.DirChain | index.js:111 | The directories a recursive `mkdirSync` creates include the directory itself, and each one is that directory or one of its ancestors. |
| Paths.DirChainIsAncestors | index.js:111 | The created directories are exactly the directory and its ancestors. |
| FilePlan.FilesToGenerate | index.js:62-83 | Exactly five tasks, in the fixed order of the layout table. Every output lies under `baseDir/`, and the five outputs are pairwise distinct. |
| FilePlan.PlanOutputSpelled | index.js:62-83 | Task `i` uses template `Layout[i].template` and writes `baseDir/<layer>/<raw name><kind>.java`. |
| FilePlan.OutputsDistinct | index.js:62-83 | The five output paths lie under `baseDir/` and are pairwise different, for every base directory and name. |
| FilePlan.PlanParent | index.js:62-83 | For a name without `/`, the parent directory of output `i` is `baseDir/<layer>`. |
| FilePlan.ServiceImplFileNameIsRaw | index.js:79-81 | The service implementation is written to `baseDir/service/impl/<name>ServiceImpl.java` with the raw name. For a name starting with a lower-case letter, that differs from the capitalised file name. |
| Files.FileSystem.MakeDirectory | index.js:111 | Adds the directory and all its ancestors, and leaves files alone. |
| Files.FileSystem.WriteFile | index.js:124 | Needs the parent directory to exist. Sets exactly that one path's contents and leaves directories alone. |
| Generator.PlanFor | index.js:57-83 | The plan for a working directory has five tasks, and every output lies under `cwd/`. |
| Generator.Rendered | index.js:117-121 | The text written for a template uses the capitalised name and the dotted module path. A template without `{{` is written unchanged. |
| Generator.TemplatesFound | index.js:107-114 | The number of leading tasks whose template can be read. Every one of them is present, and the next one, if any, is missing. |
| Generator.TemplatesFoundStep | index.js:107-114 | While walking the tasks, a present template moves the boundary on and a missing one is the boundary. |
| Generator.RenderedTemplates | index.js:114-121 | A rendered text exists for exactly the templates that exist. |
| Generator.Outputs | index.js:107-124 | Collects the outputs of the first `k` tasks. |
| Generator.FilesAfter | index.js:107-124 | After `k` writes, every old file and every one of the `k` outputs is present. |
| Generator.ShowPreview | index.js:86-89 | The log is the header followed by every output, in plan order. |
| Generator.PreviewLinesEffect | index.js:86-89 | The preview has `k + 1` lines: the header, then output `j` on line `j + 1`. |
| Generator.CreateFile | index.js:108-125 | Makes the output's parent directory and its ancestors. If the template exists, writes its rendered text to the output; otherwise no file changes. |
| Generator.CreateFiles | index.js:107-126 | Runs the tasks in order until the first missing template. The files are the old ones plus the written outputs, and a log line is produced per written file. The directories include those of the failing task when one fails. |
| Generator.CreatedLinesEffect | index.js:125 | Line `j` of the creation log is `Created <output j>`. |
| Generator.GenerateFiles | index.js:56-126 | Declined: the log is the preview plus the cancel line, and neither files nor directories change. Confirmed: the log is the preview plus the creation lines, and the files and directories are those after the tasks up to the first missing template. The outcome tells completion from the missing template. |
| Generator.FileAfterWrite | index.js:107-124 | An output holds its rendered template unless a later task overwrites it. |
| Generator.FileAfterUntouched | index.js:107-124 | A path no task writes keeps its old contents. |
| Generator.FilesAfterKeys | index.js:107-124 | The paths after `k` writes are exactly the old paths plus the `k` outputs. |
| Generator.FilesAfterEffect | index.js:107-124 | With distinct outputs, exactly the outputs are added or replaced, each holding its template's rendered text. Every other file is unchanged. |
| Generator.ConfirmedRunEffect | index.js:101-126 | A confirmed run with all five templates present adds or replaces exactly the five outputs. Each holds its rendered template, and every other file is unchanged. |
| Generator.DirsAfterEffect | index.js:111 | Old directories remain and each output's parent exists. Every new directory is a parent of an output or one of its ancestors. |
| Generator.PlainDotted | index.js:120 | Converting the module path to dots brings in no `{{`. |
| Generator.RenderedFillsTemplate | index.js:117-121 | A template of plain pieces is written with `{{name}}` as the capitalised name, `{{nameCamelCase}}` as the camel-cased name and `{{appName}}` as the dotted module path. |
| Generator.GeneratedFileFillsTemplate | index.js:107-124 | After a complete run, output `j` holds its template with every token filled as above. |
| Generator.ServiceImplPackageLine | templates/serviceImpl.java:1 | The package line renders to `package <dotted module path>.service.impl;`. |
| Generator.ServiceImplClassLine | templates/serviceImpl.java:12 | The class line renders to `public class <Name>ServiceImpl implements <Name>Service {` with the capitalised name. |
| Generator.OrderInShop | index.js:117-121 | For `order` and `com.example.shop` the renderer's preconditions hold. The name capitalises to `Order`, and the module path converts back to itself. |
| Generator.OrderServiceImplPackageLine | templates/serviceImpl.java:1 | For `order` in `com.example.shop`, line 1 renders to `package com.example.shop.service.impl;`. |
| Generator.OrderServiceImplClassLine | templates/serviceImpl.java:12 | For `order` in `com.example.shop`, line 12 renders to `public class OrderServiceImpl implements OrderService {`. |

## Left out

- The `commander` command definitions and the unknown-command handler (index.js:129-150) are not modelled. They are argument parsing by a foreign library, plus `process.exit`.
- The `inquirer` prompt (index.js:92-99) becomes the parameter `confirmed`. The `chalk` colouring is dropped, and the console output becomes the returned `log`.
- The location of the templates (`__dirname`, `fileURLToPath`, index.js:27-28, 108) is left out. The templates directory is the map `templates` from template name to text.
- Real file I/O is not modelled. The file system is a path-keyed map plus a set of directories. `readFileSync` failing is modelled only as a missing template; other I/O errors, permissions and encodings are not.
- `path.join` normalisation (`..`, `.`, repeated separators) and Windows `\` separators are not modelled. Join is concatenation with `/`.
- `Paths.Dirname`: is `.` for a path without separator and `/` for a file in the root. It does not model trailing separators, nor Node's `//` for `//x`, where it gives `/`. The plan never produces such paths.
- `$` patterns in `String.replace` replacement strings (`$&`, `$1`, …) are not modelled. Every rendering member requires `name` and `appName` to contain no `$`.
- Unicode case mapping is not modelled. Only ASCII is case-mapped, and the first character of `name` must be ASCII; the rest of the name may be anything.
- `Render.RenderFillsTemplate`: proved only for templates whose literal chunks and values are plain (no `{{`, no trailing `{`). Otherwise the passes can build tokens out of neighbouring text, as `Render.TokenCanReappear` shows.
- `Render.RenderLeavesNoToken`: the stronger property is false. It would say that no value containing `{{` means no token in the result, and `Render.TokenCanReappear` is a counterexample. The model proves the property for plain templates and values instead.
- The `async`/`await` structure of `generateFiles` is not modelled. Only the prompt uses it.
- `templates/controller_CRUD.js` is not modelled. The plan loads `controller.java` (index.js:64), so `controller_CRUD.js` is never used. Only lines 1 and 12 of `templates/serviceImpl.java` appear, as fixtures.
