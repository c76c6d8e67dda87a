# my-calorie-app in Dafny

This project models the deterministic core of my-calorie-app. The app is a
food-photo calorie analyser. A browser page sends a photo as a data URL to a
serverless backend. The backend forwards the photo to the Qwen vision model
through the DashScope multimodal-generation API, reads the answer back and
returns a result object. The page then renders that answer.

There are three hand-copied backends, and each is modelled as written:

- `shared/analysis-logic.js`, the routine behind the Express server
  (module `AnalysisLogic`);
- `api/analyze.js`, the Vercel function (modules `ApiAnalyze` and `JsonRecovery`);
- `netlify/functions/analyze.js`, the Netlify function (module `NetlifyAnalyze`).

Two browser scripts are modelled:

- `public/renderer.js`, a text formatter (modules `Markdown`, `Sections`,
  `Renderer`);
- `public/renderer_backup.js`, small helpers (module `RendererBackup`).

Both scripts share the file check (module `Upload`). Supporting modules:

- `Wrappers`: `Option` and `Result`;
- `Text`: JavaScript string operations over `seq<char>`;
- `Json`: JSON values and JavaScript truthiness;
- `Provider`: the request, the response envelope, the errors and the content
  flattening.
- `Calories`: the `总热量[：:]\s*(\d+)\s*kcal` scan, written as a
  left-to-right search.
- `WorkedExamples`: the prompt's own template read back as an answer.

Things outside the program are passed in as parameters:

- the network is a function from the call made to its reply;
- `JSON.parse` is a function from text to a value or an error message;
- `process.env.QWEN_API_KEY` is an optional string;
- `window.location.hostname` is a string.

Every backend outcome records the call it made, if any. So "nothing is sent
before the checks pass" is stated as `call == None`.

Where the code and its surrounding description disagree, the model follows
the code:

- The Vercel fallback performs no calorie scan: its `totalCalories` is
  always 0 (`api/analyze.js:122-127`).
- The Vercel request has no `parameters.result_format` block: only the other
  two backends send one.
- Both the Netlify function and the Vercel function post to the mainland
  endpoint. Only `performAnalysis` chooses the endpoint by platform.

HTML output is modelled as tagged entries, not markup:

- an icon with a line of text, or plain text;
- a calorie headline;
- a placeholder notice;
- grouped into food, nutrition and total blocks.

## Model

| member | source | states |
|---|---|---|
| AnalysisLogic.ApiUrl | shared/analysis-logic.js:5-7 | the international endpoint exactly when the platform is `'netlify'`, the mainland endpoint for every other value including an absent one |
| AnalysisLogic.PerformAnalysis | shared/analysis-logic.js:9-62 | a missing or empty key rejects with the configuration error and makes no call; otherwise exactly one POST to the platform's endpoint, with model `qwen-vl-max`, content `[image, text]` in that order, `result_format` `message` and the bearer key, and the result is the transport's error or the envelope's reading |
| AnalysisLogic.Interpret | shared/analysis-logic.js:60-78 | missing `output`, missing `choices` or empty `choices` rejects with "API返回了意料之外的数据结构"; otherwise string content gives `foods == []`, the text unchanged as `description`, `totalCalories` from the calorie scan, and `isFood` iff the text has `食物` or the total is positive; non-string content throws a `TypeError` |
| AnalysisLogic.NoKeyNoNetwork | shared/analysis-logic.js:9-12 | without a key the outcome is the same whatever the network would answer, and no call is made |
| AnalysisLogic.OnlyTheCallMatters | shared/analysis-logic.js:52-58 | two networks that answer the one call alike give the same outcome |
| Calories.FirstCalorie | shared/analysis-logic.js:65 | no value exactly when no position matches; otherwise the value at a matching position before which no position matches (the regex's leftmost match) |
| Calories.MatchAtIff | netlify/functions/analyze.js:152 | the attempt at `p` yields `n` exactly when the text has the shape label, colon, spaces, digits, spaces, `kcal` (any case) at `p` and the digits spell `n` |
| Calories.TotalCaloriesAt | shared/analysis-logic.js:65-66 | a match at `p` with none before it fixes `totalCalories` to its value |
| Calories.SkipPrefix | netlify/functions/analyze.js:152-155 | a prefix in which no match starts does not change the total |
| Calories.NoStartIn | shared/analysis-logic.js:65 | no match starts inside a piece that holds no `总热` and does not end in `总` |
| Calories.MatchAtShift | shared/analysis-logic.js:65 | a match attempt inside `b` does not depend on text put before it |
| Provider.Texts | api/analyze.js:87 | the kept texts are no more than the fragments and none of them is empty |
| Provider.TextsAppend | netlify/functions/analyze.js:129 | the filter commutes with concatenation, so the texts keep their original order |
| Provider.FlattenDropsImages | api/analyze.js:86-87 | `[{text:a}, image fragments…, {text:b}]` flattens to `a + "\n" + b` |
| JsonRecovery.StripFencesComplete | api/analyze.js:104 | after both fence removals no "```" is left in the text |
| JsonRecovery.StripFenceAbsent | api/analyze.js:104 | a text without the fence is left as it is |
| JsonRecovery.StripFenceHead | api/analyze.js:104 | a fence is removed together with all the white space after it, and the rest is stripped as if it stood alone |
| JsonRecovery.StripFenceKeeps | api/analyze.js:104 | text in which the fence's first character does not occur passes through unchanged |
| JsonRecovery.StripFencedBlock | api/analyze.js:104 | "```json\n" + object + "\n```" is stripped to the object and the line break before the closing fence |
| JsonRecovery.BraceSpan | api/analyze.js:107 | present exactly when some `{` comes before some `}`; then it is a slice with no `{` before it and no `}` after it |
| JsonRecovery.BraceSpanEnds | api/analyze.js:107 | the span starts with `{` and ends with `}` |
| JsonRecovery.BraceSpanOfObject | api/analyze.js:107 | an object that starts with `{` and ends with `}`, followed by a line break, is its own span |
| JsonRecovery.NoLineCommentLeft | api/analyze.js:111 | no `//` is left after the line-comment removal |
| JsonRecovery.NoLineCommentNoChange | api/analyze.js:111 | a text without `//` is left as it is |
| JsonRecovery.LineCommentToEnd | api/analyze.js:111 | a `//` comment is removed up to its line break, which is kept |
| JsonRecovery.BlockCommentLazy | api/analyze.js:112 | a block comment ends at its first `*/`, so the text after it is kept |
| JsonRecovery.NoBlockNoChange | api/analyze.js:112 | a text without `*/` is left as it is |
| JsonRecovery.LineCommentsFirst | api/analyze.js:111-112 | line comments are removed before block comments, so a `/*` inside a line comment opens nothing: the comment goes up to its line break and the rest is cleaned on its own |
| JsonRecovery.Candidate | api/analyze.js:101-113 | there is no candidate exactly when the fence-stripped text has no brace span; otherwise the candidate is that span with line comments removed first and block comments second |
| JsonRecovery.FencedObject | api/analyze.js:101-118 | an object without backticks, `//` or `*/`, sent inside a `json` code block, reaches `JSON.parse` exactly as it was, so recovery gives whatever the parser gives on it |
| ApiAnalyze.Analyze | api/analyze.js:7-77 | non-POST gives 405 text, a missing body crashes, a falsy `dataUrl` gives 400, a missing key gives 500 "Server configuration error."; none of these makes a call; a call is made exactly when all four gates pass, and it is one call to the mainland endpoint, whose reply is classified by `Catch` or read by `Respond` |
| ApiAnalyze.Respond | api/analyze.js:80-149 | missing or empty `choices` gives 500; content that is neither a string nor an array gives 500 "API returned unexpected content format"; a 200 happens exactly when the content has text and the recovered value is not `null`, and its body is the normalised value |
| ApiAnalyze.Normalise | api/analyze.js:133-138 | each field is the parsed value when truthy, otherwise `false`, `[]`, `0` or the text |
| ApiAnalyze.NormaliseDefaults | api/analyze.js:133-138 | every field is truthy or exactly its default, so none is missing |
| ApiAnalyze.NormaliseFallback | api/analyze.js:122-138 | normalising the fallback object leaves it unchanged |
| ApiAnalyze.FallbackReply | api/analyze.js:119-144 | without recoverable JSON the 200 result is the lowercase `食物`/`food` verdict, `[]`, 0 and the text |
| ApiAnalyze.FencedAnswer | api/analyze.js:98-144 | an answer that is an object in a `json` code block is parsed as it was sent and, when not `null`, normalised into the 200 body |
| ApiAnalyze.Catch | api/analyze.js:151-164 | a provider response with `data` gives its status and "API Error: " followed by `data.message`, or by 'Failed to get a valid response' when that message is missing or empty; a request with no response gives 504; anything else gives 500 with "Request Error: " and the message; a response without `data` crashes the handler |
| NetlifyAnalyze.KeywordIsFoodIff | netlify/functions/analyze.js:141-145 | the verdict holds iff the text has `食物`, `菜品` or `热量`, or its lowercase form has `kcal` |
| NetlifyAnalyze.Extract | netlify/functions/analyze.js:118-135 | missing or empty `choices` throws "Qwen API返回数据格式错误"; a missing message throws a `TypeError`; content that is neither a string nor an array throws "API返回内容格式异常"; string content is the text as it is and array content is the texts of its fragments joined by line breaks |
| NetlifyAnalyze.Classification | netlify/functions/analyze.js:187-201 | a timeout (`ECONNABORTED`, or a message containing `timeout`) gives 504 first; otherwise a provider response gives its status and "API调用失败: " plus `statusText`, followed by " - " and `data.message` exactly when that message is present and not empty; otherwise 500 with the error's message, or with "服务器内部错误" when that is empty; the message is never empty |
| NetlifyAnalyze.ClassifyError | netlify/functions/analyze.js:184-201 | the branch-by-branch updates of `statusCode` and `errorMessage` end at `Classification` |
| NetlifyAnalyze.BuildResult | netlify/functions/analyze.js:141-165 | the in-place update of `totalCalories` and the `||` defaults give the keyword verdict, `foods == []`, the calorie scan's total and the text |
| NetlifyAnalyze.Handle | netlify/functions/analyze.js:19-212 | OPTIONS gives 200 with an empty body and other non-POST methods give 405, with no call made; a body that fails to parse or is `null` goes to the catch block; a falsy `dataUrl` gives 400 and a missing key gives 500; none of these makes a call; otherwise one call to the mainland endpoint, and an envelope error or transport error is classified, including the 500 for a bad envelope; a success gives 200 with the result |
| Markdown.StripMarks | public/renderer.js:190-194 | after the four removals no `*` and no `#` is left |
| Markdown.StripMarksPlain | public/renderer.js:190-194 | a text without `*`, `#` or "- " is left as it is |
| Markdown.StripMarksDash | public/renderer.js:193 | a leading "- " is removed and the rest is stripped as it would be alone |
| Markdown.StripMarksHeading | public/renderer.js:194 | a leading `#` is removed and the rest is stripped as it would be alone |
| Markdown.CollapseRun | public/renderer.js:195 | a white-space run keeps at most two line breaks and is unchanged when it has at most two; with more, everything from its first line break to its last becomes exactly two line breaks, and the white space before the first and after the last is kept |
| Markdown.Collapse | public/renderer.js:195 | no white-space stretch of the result holds three line breaks, only white space changes, and a leading character that is not white space is kept |
| Markdown.CollapseSplit | public/renderer.js:195 | the rewrite works run by run: a white-space run between two characters that are not white space is rewritten on its own, and the text on either side as if the run were not there |
| Markdown.CollapseKeeps | public/renderer.js:195 | a text without such a stretch is left unchanged |
| Markdown.Clean | public/renderer.js:190-196 | the cleaned text has no `*` or `#`, no white-space stretch with three line breaks, no white space at either end, and the same non-space characters as the text with its marks stripped |
| Markdown.CleanKeeps | public/renderer.js:190-196 | a text without marks, without a triple and without white space at its ends is left as it is |
| Markdown.CleanJoins | public/renderer.js:190-196 | two such texts with white space between them keep their text while the white space between is collapsed as one run, e.g. five line breaks become two |
| Sections.StopFrom | public/renderer.js:218 | the lazy group ends at the first stop word from its start, or at the end of the text |
| Sections.SectionMatch | public/renderer.js:218-230 | no match exactly when the marker is absent; otherwise the capture runs from the first marker to the next stop word or the end |
| Sections.SectionStops | public/renderer.js:218-230 | a captured section contains none of its stop words |
| Sections.ExtractSections | public/renderer.js:210-236 | filling the fields one by one gives the three trimmed captures |
| Sections.SectionsClean | public/renderer.js:218-233 | the food and nutrition sections never contain `【`; the total section never contains `【`, `补充说明` or `最终总计` |
| Sections.TrimKeepsOut | public/renderer.js:220 | trimming cannot create an occurrence |
| Renderer.TrimmedLines | public/renderer.js:286-290 | blank lines are dropped and every kept line is trimmed and not empty |
| Renderer.TrimmedLinesAppend | public/renderer.js:286-290 | the filter works line by line: the kept lines of `a + b` are those of `a` then those of `b` |
| Renderer.TrimmedLinesOne | public/renderer.js:286-290 | a single line gives nothing when it is blank and its trimmed form otherwise |
| Renderer.SimpleEntry | public/renderer.js:290-307 | a `kcal` line gets 🔥 before any colon check; a colon line gets 🥤 for a drink keyword and 🍽️ otherwise; any other line is plain, and the line itself is kept |
| Renderer.SimpleEntries | public/renderer.js:289-309 | one entry per line, in order |
| Renderer.FormatSimpleResult | public/renderer.js:285-312 | the loop's entries are those of the non-blank lines of the text |
| Renderer.FoodEntry | public/renderer.js:318-327 | a colon line gets 🥤 or 🥘; a line without a colon is kept exactly when it mentions neither closing word and does not start with `\d+.` |
| Renderer.FoodEntriesFilter | public/renderer.js:318-328 | an entry is shown exactly when some line yields it |
| Renderer.FoodEntriesNone | public/renderer.js:318-330 | no entry exactly when no line yields one |
| Renderer.FoodEntriesAppend | public/renderer.js:318-328 | entries are made line by line: those of `a + b` are those of `a` followed by those of `b` |
| Renderer.FoodEntriesOne | public/renderer.js:318-328 | a single line gives its own entry, or nothing when it is not kept |
| Renderer.FoodItems | public/renderer.js:314-331 | the placeholder '暂无食物识别信息' exactly when no line is kept; otherwise exactly the entries of the kept lines, one per line in line order, and an entry occurs exactly when some line yields it |
| Renderer.FormatFoodItems | public/renderer.js:315-330 | the loop builds `FoodItems` |
| Renderer.StripNumber | public/renderer.js:349 | the digits from the start, the dot after them and all white space after the dot are removed; what is left is a strict suffix that does not start with white space |
| Renderer.NutritionItems | public/renderer.js:333-370 | the placeholder '暂无营养分析信息' exactly when every line is silent (a closing remark, a bare number, or neither numbered nor about a nutrient); otherwise the items, each with an icon |
| Renderer.NutritionQuiet | public/renderer.js:338-367 | from the empty state, silent lines leave it empty and any other line leaves an item finished or pending for good |
| Renderer.NutritionEntriesNone | public/renderer.js:361-369 | the section yields nothing exactly when every line is silent, and only items |
| Renderer.FormatNutritionItems | public/renderer.js:333-370 | the `result`/`currentItem` loop and the final flush build `NutritionItems` |
| Renderer.NutritionRunAppend | public/renderer.js:338-360 | the state machine runs line by line: running on `a + b` is running on `a` and then on `b` |
| Renderer.NutritionRunDone | public/renderer.js:343-347 | finished items are only appended to |
| Renderer.ItemsSplit | public/renderer.js:341-367 | a numbered line is an item boundary, so the pending item is flushed and never lost or merged |
| Renderer.KcalNumberAt | public/renderer.js:382 | a match of `(\d+)\s*kcal` yields a non-empty run of digits |
| Renderer.KcalNumberAtIff | public/renderer.js:382 | the attempt at `p` succeeds exactly when a maximal digit run starting at `p` is followed by white space and `kcal`, and then yields those digits |
| Renderer.FirstKcalNumber | public/renderer.js:382-383 | none exactly when no position matches; otherwise the leftmost match |
| Renderer.TotalItems | public/renderer.js:373-391 | the placeholder '暂无总计信息' exactly when no line is a total line or a nutrient line; otherwise the headline, if any, then the nutrient lines |
| Renderer.FormatTotalCalories | public/renderer.js:373-392 | the loop builds `TotalItems` |
| Renderer.HeadlinePresent | public/renderer.js:381-384 | there is a headline exactly when some line mentions `总卡路里` or `总热量` |
| Renderer.NutrientsPresent | public/renderer.js:385-386 | some nutrient item is listed exactly when some line is a nutrient line, and each is an item |
| Renderer.HeadlineIsLast | public/renderer.js:381-384 | the headline is that of the last such line |
| Renderer.StructuredLayout | public/renderer.js:239-282 | one block per non-empty section, strictly in the order foods, nutrition, total, and none of them empty |
| Renderer.FormatStructuredResult | public/renderer.js:239-282 | appending the blocks builds `StructuredBlocks` |
| Renderer.FormatAnalysisResult | public/renderer.js:174-207 | the empty view iff the input is blank; the no-food card iff it is not blank and says `未识别到食物` or `no food` in any case; the structured view iff neither holds and some cleaned section is non-empty; otherwise the simple view of the cleaned text |
| Upload.AcceptFile | public/renderer.js:18-28 | accepted iff there is a file whose type starts with `image/` and whose size is at most 10·1024·1024; a non-image is refused before the size check |
| Upload.LimitIsInclusive | public/renderer_backup.js:31-41 | 10 485 760 bytes are accepted and one byte more is not |
| RendererBackup.GetApiUrl | public/renderer_backup.js:18-25 | '/.netlify/functions/analyze' iff the host name contains `netlify.app`, else '/api/analyze' |
| RendererBackup.ShowResult | public/renderer_backup.js:144-203 | a `null` answer and a missing `result` give the error card, the latter with 'API响应中缺少result字段'; with a result, a description that is falsy or a string selects the food card exactly when `isFood` is truthy and the warning card exactly when it is not, and any other description gives the error card of the thrown `TypeError`; the food card shows `totalCalories \|\| 0` and `description \|\| '无详细信息'`, the warning card `description \|\| '无法识别图片内容'`; shown descriptions have every line break replaced by `<br>` |
| RendererBackup.ErrorMessage | public/renderer_backup.js:212-215 | the error's message when it is not empty, and '分析失败' exactly when it is |
| RendererBackup.Breaks | public/renderer_backup.js:182 | a string gets every `\n` replaced by `<br>`; any other value throws |
| RendererBackup.FoodCardDefaults | public/renderer_backup.js:162-165 | a food result with falsy total and description shows 0 and '无详细信息' |
| RendererBackup.WarningCardDefault | public/renderer_backup.js:186-199 | a non-food result with a falsy description, including `""`, shows '无法识别图片内容' |
| RendererBackup.NutrientsOf | public/renderer_backup.js:244-249 | the name as read, and each amount defaulting to 0 when falsy |
| RendererBackup.FormatNutrients | public/renderer_backup.js:235-256 | the placeholder exactly for a missing or empty list; a non-array throws; for an array, the grid exactly when no element is `null`, with one block per food in list order, and a throw otherwise |
| WorkedExamples.TemplateTotal | netlify/functions/analyze.js:88 | the output template in the prompt yields a total of 990, whatever drink label it carries |
| WorkedExamples.NetlifyTemplateResult | netlify/functions/analyze.js:141-155 | the Netlify function reads its own template as food with 990 calories |
| WorkedExamples.SharedTemplateResult | shared/analysis-logic.js:65-68 | the shared routine reads the template as food with 990 calories |

## Left out

- The HTTP transport is left out: axios, its 30 s and 50 s timeouts, and the provider's behaviour. The reply or the thrown error is an input.
- Environment reads are parameters.
- The DOM is left out. This covers event listeners, `FileReader`, `fetch`, `alert`, `innerHTML`, the loading state and `console` logging.
- The `!apiResponse.ok` branch of the click handler in `public/renderer_backup.js` is not modelled. It reads the server's error JSON.
- The click handler of `public/renderer.js` is not modelled. Only `formatAnalysisResult` and the functions under it are.
- `server.js` is not part of this model. It only forwards to `performAnalysis` with the platform `'zeabur'`, and `AnalysisLogic.ApiUrl` covers that value.
- CORS headers, the `Content-Type` header and the `new Date().toISOString()` timestamps are left out.
- The JSON grammar of `JSON.parse` is a parameter. `JSON.stringify` of the response bodies is not modelled: a body is a datatype.
- The text of engine `TypeError`s is a fixed placeholder. The source does not fix that text.
- `toLowerCase` is modelled as ASCII lowering. It changes nothing for the Chinese keywords. Non-ASCII letters that lower onto `k`, `c`, `a`, `l` or `food` (the Kelvin sign) are not modelled.
- `Provider.Part`: a fragment's truthy `text` that is not a string, and a `null` fragment (which makes `.filter` throw), are not modelled. A fragment has a string text or none.
- `AnalysisLogic.PerformAnalysis`: an undefined `dataUrl` is passed through as a JSON value; no check on it exists in that routine.
- `NetlifyAnalyze.BuildResult`: the branch at `netlify/functions/analyze.js:168-170` is not modelled. `description` is always a string there, so `Array.isArray` never holds.
- `Calories.FirstCalorie`: `parseInt` of a long digit run loses precision in JavaScript. The model keeps the exact natural number.
- The verbatim prompt is a constant. Only its output template is used by a property.
- `Provider.TemplatePieces`: each nutrient line of the template is kept as two pieces, split at its first comma. Their concatenation is the source's line.
- HTML markup, inline styles, and interpolation of values into markup are left out. Entries carry the icon and the text.
- `RendererBackup.NutrientsOf`: the name is kept as the raw value. Printing `undefined` inside the markup is not modelled.
- `Markdown.StripMarks`: the `#+` pattern removes a run of `#` in one step, and the model removes each `#` separately. The result is the same string.
