# remy-ingredients core, modelled in Dafny

remy-ingredients is a moodboard: the user collects *ingredients* on a tldraw canvas.
Ingredients are text cards and image cards, each with a title, comments and an active flag.
An agent chat turns the active ingredients into mockups.
This project models the logic behind that, with the canvas reduced to a sequence of shape records
`{id, type, x, y, props, meta}` and every editor call reduced to its effect on that sequence.

It covers:

- the agent chat's submission and the fold of the agent's event stream over the message list,
  including the cards a visualization puts on the canvas (`ChatMessages`, `ChatPanel`);
- the older chat panel's chunk accumulator (`LegacyChatPanel`);
- the two serialisers of the active ingredients: the agent's content list and the Markdown
  clipboard text (`FormatIngredients`);
- the ingredient projection (filter, stable sort by `createdAt`) shared by both ingredient panels
  and the shape-index hook, and the panels' toggle, select-all, selection, deletion, resizing and
  title handling (`Projection`, `IngredientsPanel`, `LegacyIngredientsPanel`, `ShapeIndex`);
- the card creators: paste with its `Image n` / `Text n` counters, the summarising creators, and
  the agent image card, all sharing the 600 x 600 aspect-preserving clamp (`PasteHandler`,
  `IngredientHandler`, `ChatHandler`, `Fit`);
- the frame loop of the suggestions stream, a subset of server-sent-event framing as in
  section 9.2 of the WHATWG HTML Living Standard (`SuggestionsStream`);
- the storage-name sanitiser, the client-side image name and `resolve` (`StorageNames`,
  `AssetStore`);
- the upload function's checks on a data URL as in section 3 of RFC 2397 (`UploadFunction`);
- the placeholder summary builder (`LlmService`);
- the side-dependent drag width of the resizable panel (`ResizablePanel`).

`JsText` gives JavaScript's string operations their exact meaning: `trim`, `startsWith`,
`indexOf`, `split` on one character, and `String(n)`.
A string is a sequence of Unicode scalar values, one `char` each.
JavaScript counts UTF-16 code units, two for a character outside the Basic Multilingual Plane
such as an emoji. `Utf16Length` and `Utf16Prefix` state that count wherever the core depends
on it: the sanitiser's per-code-unit replacement and the summary's 100-unit cut.
`Wrappers` holds `Option` and `Result`.

Stateful components are classes with `modifies` clauses, proved against specification functions.
Examples are the agent chat, the old chat, both ingredient panels, the paste handler with its
module-level counters, and the resizable panel.
Code that reassigns local variables step by step is a method proved equal to its function, such as
`getDimensions`.
Loops in the source are `while`/`for` loops with invariants.
Examples are the backward scan, the artifact placement, the event loop, the chunk loop, the frame
loops, the serialisers' push loops, the select-all loop and the clipboard item loop.
Pure code is functions and lemmas.

Values from outside are parameters:

- the events and chunks of a stream;
- the result of `JSON.parse` or an image decode;
- the summary service;
- ids, `Date.now` and `Math.random`;
- the cursor position.

## Model

| member | source | states |
|---|---|---|
| Canvas.OrEmpty | src/components/Chat/ChatPanel.tsx:160 | `o \|\| ''`: the string when truthy, otherwise empty |
| Canvas.WithActive | src/components/Ingredients/IngredientsPanel.tsx:161-167 | setting `meta.isActive` keeps the id, type, props, sort key and ingredient status, and sets the flag |
| Canvas.SetActive | src/components/Ingredients/IngredientsPanel.tsx:159-168 | `updateShape` of the active flag rewrites exactly the shapes carrying that id; a missing id leaves the page as it is |
| Canvas.SetActiveLastWins | src/components/Ingredients/IngredientsPanel.tsx:159-168 | setting the flag twice keeps only the second setting |
| Canvas.SetActiveRoundTrip | src/components/Ingredients/IngredientsPanel.tsx:159-168 | switching a card's flag away and back restores the page exactly, when every shape with that id carried the flag it gets back |
| Canvas.Ids | src/components/Ingredients/IngredientsPanel.tsx:243 | `ingredients.map(ing => ing.id)`: same length, position by position |
| Projection.IngredientShapes | src/components/Ingredients/IngredientsPanel.tsx:45-52 | the filter never lengthens the page |
| Projection.IngredientShapesMembers | src/hooks/useShapeIndex.ts:20-25 | a shape is kept exactly when it is on the page, is one of the two ingredient types and has a `title` prop |
| Projection.ActiveIngredientShapes | src/utils/formatIngredientsForLLM.ts:32-37 | the active-ingredient filter never lengthens the page |
| Projection.ActiveIngredientShapesMembers | src/utils/formatIngredientsForLLM.ts:32-37 | a shape is kept exactly when it is an ingredient with `meta.isActive === true` |
| Projection.ActiveIngredientShapesAppend | src/utils/formatIngredientsForLLM.ts:32-37 | the filter distributes over concatenation, so page order is kept |
| Projection.SortByCreatedAt | src/components/Ingredients/IngredientsPanel.tsx:55-59 | the stable sort by `createdAt`; its contract is stated by Projection.SortByCreatedAtCorrect |
| Projection.InsertMultiset | src/components/Ingredients/IngredientsPanel.tsx:55-59 | one insertion step adds exactly the inserted shape |
| Projection.InsertSorted | src/components/Ingredients/IngredientsPanel.tsx:55-59 | inserting into a sorted list keeps it sorted |
| Projection.InsertWithKey | src/components/Ingredients/IngredientsPanel.tsx:55-59 | inserting keeps the order of shapes with equal keys |
| Projection.SortByCreatedAtCorrect | src/components/Ingredients/IngredientsPanel.tsx:55-59 | the sort by `createdAt` (missing counts as 0) is a stable sort: sorted in the given direction, a permutation, and equal keys keep their input order |
| Projection.InsertSetActive | src/components/Ingredients/IngredientsPanel.tsx:55-59 | setting the active flag commutes with one insertion step |
| Projection.SortSetActive | src/components/Ingredients/IngredientsPanel.tsx:55-59 | setting the active flag commutes with the sort |
| Projection.IngredientShapesSetActive | src/components/Ingredients/IngredientsPanel.tsx:45-52 | setting the active flag commutes with the ingredient filter |
| IngredientsPanel.GetIngredientTitle | src/components/Ingredients/IngredientsPanel.tsx:10-17 | the title when it has a non-blank character, else "Image" for image cards and "Text" for any other; never blank |
| IngredientsPanel.GetIngredientTitleStable | src/components/Ingredients/IngredientsPanel.tsx:10-17 | storing the displayed title as the title displays it unchanged |
| IngredientsPanel.DisplayOrder | src/components/Ingredients/IngredientsPanel.tsx:43-61 | the listed cards; its contract is stated by IngredientsPanel.DisplayOrderCorrect |
| IngredientsPanel.DisplayOrderCorrect | src/components/Ingredients/IngredientsPanel.tsx:43-61 | the listed cards are exactly the page's ingredient cards, each as often as on the page, newest first, with equal ages in page order |
| IngredientsPanel.ActiveIds | src/components/Ingredients/IngredientsPanel.tsx:69-73 | the active ids are never more than the listed cards |
| IngredientsPanel.ActiveIdsMembers | src/components/Ingredients/IngredientsPanel.tsx:69-73 | an id is listed as active exactly when some listed card with that id has a true `isActive` |
| IngredientsPanel.ActiveIdsSetActive | src/components/Ingredients/IngredientsPanel.tsx:159-168 | after setting `id`'s flag to `b`, `id` is active exactly when `b` holds and a card has that id; every other id keeps its status |
| IngredientsPanel.RemoveAll | src/components/Ingredients/IngredientsPanel.tsx:172 | `filter(id => id !== x)` never lengthens the list |
| IngredientsPanel.RemoveAllMembers | src/components/Ingredients/IngredientsPanel.tsx:172 | the filtered list holds exactly the other ids |
| IngredientsPanel.RemoveAllAppend | src/components/Ingredients/IngredientsPanel.tsx:172 | the filter distributes over concatenation |
| IngredientsPanel.RemoveAllAbsent | src/components/Ingredients/IngredientsPanel.tsx:172 | filtering out an absent id changes nothing |
| IngredientsPanel.Toggled | src/components/Ingredients/IngredientsPanel.tsx:156-173 | the id list after a toggle; its contract is stated by IngredientsPanel.ToggledEffect, ToggledTwice and ToggledNoDuplicates |
| IngredientsPanel.ToggledEffect | src/components/Ingredients/IngredientsPanel.tsx:156-173 | a missing id is appended at the end; a present id is removed everywhere; no other id is gained or lost |
| IngredientsPanel.ToggledTwice | src/components/Ingredients/IngredientsPanel.tsx:156-173 | toggling an absent id twice restores the list exactly |
| IngredientsPanel.ToggleActiveTwice | src/components/Ingredients/IngredientsPanel.tsx:154-175 | two toggles of a card whose flag agrees with the id list restore the page; a card that was off also gets the list back, one that was on moves to the end of it |
| IngredientsPanel.RemoveAllNoDuplicates | src/components/Ingredients/IngredientsPanel.tsx:172 | filtering keeps a list free of duplicates |
| IngredientsPanel.ToggledNoDuplicates | src/components/Ingredients/IngredientsPanel.tsx:156-173 | toggling keeps a list free of duplicates |
| IngredientsPanel.RemoveShapes | src/components/Ingredients/IngredientsPanel.tsx:104-108 | deleting shapes never lengthens the page |
| IngredientsPanel.RemoveShapesMembers | src/components/Ingredients/IngredientsPanel.tsx:104-108 | after `deleteShapes(ids)` the page holds exactly the shapes whose id is not in `ids` |
| IngredientsPanel.UpdatedEffect | src/components/Ingredients/IngredientsPanel.tsx:247-255 | for one page shape, select-all keeps its id, gives it the new flag when a listed card carries its id, and leaves it alone otherwise |
| IngredientsPanel.SelectAllPage | src/components/Ingredients/IngredientsPanel.tsx:247-255 | select-all keeps the page's length |
| IngredientsPanel.ReplaceShape | src/components/Ingredients/IngredientsPanel.tsx:248-254 | one `updateShape` replaces exactly the shapes with that id |
| IngredientsPanel.SelectAllPageStep | src/components/Ingredients/IngredientsPanel.tsx:247-255 | one `forEach` turn is one more listed card written over the page |
| IngredientsPanel.SelectAllPageEffect | src/components/Ingredients/IngredientsPanel.tsx:247-255 | after select-all every shape carrying a listed id has the new flag, ids never change, and every other shape is untouched |
| IngredientsPanel.SelectAllReachesEveryIngredient | src/components/Ingredients/IngredientsPanel.tsx:242-259 | when the list is the page's fresh projection, select-all gives every ingredient card of the page the new flag |
| IngredientsPanel.ToggleAgreesWithRefresh | src/components/Ingredients/IngredientsPanel.tsx:154-175 | after toggling a displayed card, the id list agrees as a set with what the next `updateIngredients` reads back from the page |
| IngredientsPanel.DisplayOrderSetActive | src/components/Ingredients/IngredientsPanel.tsx:43-73 | setting a flag commutes with the displayed projection |
| IngredientsPanel.DisplayedId | src/components/Ingredients/IngredientsPanel.tsx:43-61 | every ingredient card of the page is listed |
| IngredientsPanel.Panel.constructor | src/components/Ingredients/IngredientsPanel.tsx:76-77 | mounting runs the first refresh: the projection and its active ids |
| IngredientsPanel.Panel.UpdateIngredients | src/components/Ingredients/IngredientsPanel.tsx:43-74 | the list becomes the newest-first projection of the page and the active ids its active cards; nothing else changes |
| IngredientsPanel.Panel.ToggleActive | src/components/Ingredients/IngredientsPanel.tsx:154-175 | the flag on the page becomes "was not listed" and the id list is toggled |
| IngredientsPanel.Panel.SelectAll | src/components/Ingredients/IngredientsPanel.tsx:242-259 | equal counts switch every listed card off and empty the id list; otherwise every listed card is switched on and the list becomes all ids in display order |
| IngredientsPanel.Panel.Select | src/components/Ingredients/IngredientsPanel.tsx:117-131 | shift-click toggles the id in the selection; a plain click makes the selection exactly that id |
| IngredientsPanel.Panel.KeyDown | src/components/Ingredients/IngredientsPanel.tsx:104-108 | Delete or Backspace with a non-empty selection deletes the selected shapes; any other key changes nothing |
| LegacyIngredientsPanel.ClampPanelWidth | src/components/IngredientsPanel.tsx:33-35 | the width always lies in [250, 800], and is `clientX - 16` when that is in range |
| LegacyIngredientsPanel.ClampPanelWidthNearest | src/components/IngredientsPanel.tsx:33-35 | the clamped width is the allowed width nearest to `clientX - 16` |
| LegacyIngredientsPanel.ClampPanelWidthMonotone | src/components/IngredientsPanel.tsx:33-35 | the width follows the cursor monotonically |
| LegacyIngredientsPanel.DisplayTitle | src/components/IngredientsPanel.tsx:242 | the truthy title, else "Ingredient " and the row index from 0; never empty |
| LegacyIngredientsPanel.FallbackTitlesDistinct | src/components/IngredientsPanel.tsx:242 | two untitled rows never show the same fallback title |
| LegacyIngredientsPanel.SetTitle | src/components/IngredientsPanel.tsx:121-126 | renaming sets the title of exactly the cards with that id |
| LegacyIngredientsPanel.SetTitleKeepsIngredients | src/components/IngredientsPanel.tsx:121-126 | a renamed card stays an ingredient of the same age, so it keeps its place in the list; renaming twice is renaming once |
| LegacyIngredientsPanel.Panel.constructor | src/components/IngredientsPanel.tsx:17-22 | expanded, 320 wide, not resizing, not editing, after the first refresh |
| LegacyIngredientsPanel.Panel.RenderedWidth | src/components/IngredientsPanel.tsx:139 | the drawn width is the state width when expanded and 320 when collapsed, always within [250, 800] |
| LegacyIngredientsPanel.Panel.UpdateIngredients | src/components/IngredientsPanel.tsx:56-75 | the list becomes the newest-first projection; nothing else changes |
| LegacyIngredientsPanel.Panel.ResizeStart | src/components/IngredientsPanel.tsx:25-28 | starts resizing |
| LegacyIngredientsPanel.Panel.Resize | src/components/IngredientsPanel.tsx:30-36 | the width changes, to the clamp of the cursor, only while resizing, and stays in range |
| LegacyIngredientsPanel.Panel.ResizeEnd | src/components/IngredientsPanel.tsx:38-40 | stops resizing |
| LegacyIngredientsPanel.Panel.ToggleExpanded | src/components/IngredientsPanel.tsx:130-132 | flips the collapse state only |
| LegacyIngredientsPanel.Panel.TitleDoubleClick | src/components/IngredientsPanel.tsx:117-119 | starts editing that card's title |
| LegacyIngredientsPanel.Panel.TitleChange | src/components/IngredientsPanel.tsx:121-128 | stores the title on the page and leaves editing |
| LegacyIngredientsPanel.Panel.TitleEscape | src/components/IngredientsPanel.tsx:227-228 | leaves editing without storing anything |
| LegacyIngredientsPanel.Panel.RowClick | src/components/IngredientsPanel.tsx:177-178 | selects exactly that card |
| LegacyIngredientsPanel.Panel.KeyDown | src/components/IngredientsPanel.tsx:104-109 | Delete or Backspace with a non-empty selection deletes the selected shapes; anything else changes nothing |
| ShapeIndex.FindIndex | src/hooks/useShapeIndex.ts:34 | `findIndex`: the first position with the id, or -1 exactly when no shape has it |
| ShapeIndex.GetShapeIndex | src/hooks/useShapeIndex.ts:18-35 | `getShapeIndex`; its contract is stated by ShapeIndex.GetShapeIndexCorrect and GetShapeIndexIgnoresActive |
| ShapeIndex.GetShapeIndexCorrect | src/hooks/useShapeIndex.ts:18-35 | -1 exactly when no ingredient card of the page has the id; otherwise a position below the count whose card has the id; the counted list is the ingredient cards sorted oldest first |
| ShapeIndex.FindIndexSetActive | src/hooks/useShapeIndex.ts:34 | the search ignores active flags |
| ShapeIndex.GetShapeIndexIgnoresActive | src/hooks/useShapeIndex.ts:20-34 | toggling any card leaves every index as it was |
| FormatIngredients.TitleOf | src/utils/formatIngredientsForLLM.ts:52 | `title \|\| 'Untitled'`: never empty |
| FormatIngredients.NumberedComments | src/utils/formatIngredientsForLLM.ts:56-60 | one line per comment, in order, numbered from 1 as "i. text", with the AI tag exactly when `isAI` |
| FormatIngredients.LlmCommentText | src/utils/formatIngredientsForLLM.ts:56-60 | empty exactly when there are no comments, otherwise opens with "\nComments:\n" |
| FormatIngredients.LlmItems | src/utils/formatIngredientsForLLM.ts:30-84 | the agent's content list; its contract is stated by FormatIngredients.LlmItemsEmptyIff, LlmItemsLength, LlmImagesAreAuto and InactiveShapeIgnored |
| FormatIngredients.FormatIngredientsForLLM | src/utils/formatIngredientsForLLM.ts:30-84 | the `push` loop builds exactly the specified list: the preamble when an ingredient is active, then each active ingredient's items in page order |
| FormatIngredients.PushAllItems | src/utils/formatIngredientsForLLM.ts:50-81 | the loop appends the items of every ingredient, in order |
| FormatIngredients.PushShapeItems | src/utils/formatIngredientsForLLM.ts:52-80 | a text card pushes one `input_text`; an image card with a URL pushes an `input_text` and an `input_image`; anything else pushes nothing |
| FormatIngredients.LlmItemsEmptyIff | src/utils/formatIngredientsForLLM.ts:39-47 | the list is empty exactly when no shape is an active ingredient, and otherwise opens with the preamble |
| FormatIngredients.ItemsOfLength | src/utils/formatIngredientsForLLM.ts:50-81 | the item count is (text cards) + 2 x (image cards with a URL) |
| FormatIngredients.LlmItemsLength | src/utils/formatIngredientsForLLM.ts:30-84 | the length is 0, or 1 + (text cards) + 2 x (image cards with a URL) |
| FormatIngredients.ItemsOfImages | src/utils/formatIngredientsForLLM.ts:67-80 | every image item has `detail: 'auto'` and a non-empty URL |
| FormatIngredients.LlmImagesAreAuto | src/utils/formatIngredientsForLLM.ts:67-80 | every image item of the output has `detail: 'auto'` and a non-empty URL |
| FormatIngredients.InactiveShapeIgnored | src/utils/formatIngredientsForLLM.ts:32-37 | a shape that is not an active ingredient changes neither the agent list nor the clipboard text |
| FormatIngredients.ClipboardCommentText | src/utils/formatIngredientsForLLM.ts:107-111 | the clipboard comment block is empty exactly when there are no comments |
| FormatIngredients.ClipboardBlockShape | src/utils/formatIngredientsForLLM.ts:101-118 | a block is empty exactly when the card is neither text nor an image with a URL; otherwise it opens with `# {title}` and ends with "\n---\n\n" |
| FormatIngredients.ClipboardText | src/utils/formatIngredientsForLLM.ts:89-121 | the Markdown clipboard text; its contract is stated by FormatIngredients.ClipboardShape and InactiveShapeIgnored |
| FormatIngredients.FormatIngredientsForClipboard | src/utils/formatIngredientsForLLM.ts:89-121 | the `+=` loop builds exactly the header followed by the block of each active ingredient in page order |
| FormatIngredients.AppendBlock | src/utils/formatIngredientsForLLM.ts:101-118 | one turn appends exactly that card's block |
| FormatIngredients.BlocksOfEnd | src/utils/formatIngredientsForLLM.ts:113-117 | the blocks are empty or end with the separator |
| FormatIngredients.ClipboardShape | src/utils/formatIngredientsForLLM.ts:89-121 | the text always opens with "# Ingredients in the workspace\n\n", is exactly that with nothing active, and otherwise ends with the separator |
| Fit.FitWithin | src/utils/chatHandler.ts:103-112 | the 600 x 600 clamp; its contract is stated by Fit.FitWithinSpec, FitWide, FitTall and FitWithinIsLargest |
| Fit.GetDimensions | src/utils/chatHandler.ts:99-113 | the reassigning code computes exactly the fitted size |
| Fit.FitWithinSpec | src/utils/chatHandler.ts:103-112 | the fitted size is positive and within 600 x 600; it is the natural size when that fits, and otherwise touches 600 on one side; it keeps the aspect ratio and never enlarges |
| Fit.FitWide | src/utils/chatHandler.ts:105-107 | the landscape branch: full width, a height within the box and below the natural one, and the same ratio |
| Fit.FitTall | src/utils/chatHandler.ts:108-111 | the portrait branch: full height, a width within the box and no larger than the natural one, and the same ratio |
| Fit.FitWithinIsLargest | src/utils/chatHandler.ts:103-112 | a box of the image's shape inside 600 x 600 is no wider and no taller than the fitted one |
| ChatHandler.WithDefaultInstruction | src/utils/chatHandler.ts:21-30 | the default-instruction rule; its contract is stated by ChatHandler.WithDefaultInstructionSpec and WithDefaultInstructionIdempotent |
| ChatHandler.AgentImageShape | src/utils/chatHandler.ts:119-150 | the agent's image card; its contract is stated by ChatHandler.AgentImageShapeSpec |
| ChatHandler.AddAgentImageOutput | src/utils/chatHandler.ts:89-154 | the page after `addAgentImageOutput`; its contract is stated by ChatHandler.AgentImageIsSent |
| ChatHandler.WithDefaultInstructionSpec | src/utils/chatHandler.ts:21-30 | the sent items always carry non-blank text; the given items are their prefix; the instruction is appended exactly when no `input_text` item has non-whitespace text |
| ChatHandler.WithDefaultInstructionIdempotent | src/utils/chatHandler.ts:21-30 | applying the rule twice is applying it once |
| ChatHandler.AgentImageShapeSpec | src/utils/chatHandler.ts:119-150 | the card is an active image ingredient at the point, titled by the artifact or "AI Generated", with the artifact's image fitted within 600 x 600 at its ratio, and it has one AI comment holding the untrimmed notes exactly when the notes are not blank |
| ChatHandler.AgentImageIsSent | src/utils/chatHandler.ts:146-149 | since the card is active, the active-ingredient filter behind the agent request and the clipboard copy gains it after the active ingredients already on the page |
| IngredientHandler.SummaryProps | src/utils/ingredientHandler.ts:30-70 | a new card's props from the summary; its contract is stated by IngredientHandler.SummaryPropsSpec |
| IngredientHandler.AddImageIngredient | src/utils/ingredientHandler.ts:8-73 | the page after `addImageIngredient`; its contract is stated by IngredientHandler.ImageIngredientShapeSpec and NewIngredientsAreInactive |
| IngredientHandler.AddTextIngredient | src/utils/ingredientHandler.ts:78-116 | the page after `addTextIngredient`; its contract is stated by IngredientHandler.TextIngredientShapeSpec and NewIngredientsAreInactive |
| IngredientHandler.SummaryPropsSpec | src/utils/ingredientHandler.ts:30-70 | on success the card takes the summary's title and one AI comment with its description; on failure it is titled "Error" with no comments; text, image and size are kept |
| IngredientHandler.ImageIngredientShapeSpec | src/utils/ingredientHandler.ts:11-70 | an image ingredient at the point, not active, with the data URL, fitted within 600 x 600 at its ratio, with one comment exactly when the summary succeeded |
| IngredientHandler.TextIngredientShapeSpec | src/utils/ingredientHandler.ts:78-115 | a text ingredient at the point, not active, holding the text, with one comment exactly when the summary succeeded |
| IngredientHandler.NewIngredientsAreInactive | src/utils/ingredientHandler.ts:43-54 | neither creator changes the agent list or the clipboard text until the card is toggled on |
| PasteHandler.FirstImageFile | src/utils/pasteHandler.ts:91-107 | none exactly when no item is an `image/` type with a file; otherwise the file of the first such item |
| PasteHandler.Paste | src/utils/pasteHandler.ts:73-114 | one paste; its contract is stated by PasteHandler.PasteSpec and PasteContinues |
| PasteHandler.PasteAll | src/utils/pasteHandler.ts:4-114 | a run of pastes from some counters; its contract is stated by PasteHandler.PasteAllNumbering |
| PasteHandler.PasteSpec | src/utils/pasteHandler.ts:73-114 | nothing while shapes are selected; the first image file wins over any text and adds at most one image card, titled by the incremented image counter; otherwise non-blank text, untrimmed, adds one text card titled by the incremented text counter |
| PasteHandler.ImageShapeFits | src/utils/pasteHandler.ts:15-30 | the pasted image is fitted within 600 x 600 at its ratio, and keeps its natural size when that fits |
| PasteHandler.TitlesOfAppend | src/utils/pasteHandler.ts:33-34 | the titles of one kind distribute over concatenation |
| PasteHandler.NumberedAppend | src/utils/pasteHandler.ts:33-34 | consecutive number ranges concatenate |
| PasteHandler.PasteContinues | src/utils/pasteHandler.ts:4-5 | one paste only appends to the page, and its card continues the "Text n" or "Image n" numbering from the counters |
| PasteHandler.PasteAllNumbering | src/utils/pasteHandler.ts:4-5 | over any sequence of pastes, the n-th text card from fresh counters is "Text n" and the n-th image card "Image n", counted independently |
| PasteHandler.FindImageFile | src/utils/pasteHandler.ts:93-106 | the `for ... of` with its early return finds exactly the first image file |
| PasteHandler.Handler.constructor | src/utils/pasteHandler.ts:4-5 | both counters start at 0 |
| PasteHandler.Handler.AddImageIngredient | src/utils/pasteHandler.ts:10-49 | once the image loads, the image counter goes up by one and the fitted card "Image n" is added |
| PasteHandler.Handler.AddTextIngredient | src/utils/pasteHandler.ts:54-68 | the text counter goes up by one and the card "Text n" is added |
| PasteHandler.Handler.HandleGlobalPaste | src/utils/pasteHandler.ts:73-114 | the handler's counters and page change exactly as the paste specification says |
| ChatMessages.Step | src/components/Chat/ChatPanel.tsx:147-287 | the update of the message list for one event; its contract is stated by ChatMessages.StepFrame, DeltaSpec, StatusEventSpec, ToolOutputArraySpec, ToolOutputTextSpec and FinalSpec |
| ChatMessages.Fold | src/components/Chat/ChatPanel.tsx:146-287 | the list after a run of events; its contract is stated by ChatMessages.FoldFrame, FoldAddsAssistants and DeltasConcatenate |
| ChatMessages.LastTarget | src/components/Chat/ChatPanel.tsx:156-163 | the backward scan stops at the last streaming assistant message (holding text, when asked) or returns -1; nothing after it qualifies |
| ChatMessages.LastTargetText | src/components/Chat/ChatPanel.tsx:237-239 | the text-only scan stops no later than the plain scan, and at the same place when that message holds text |
| ChatMessages.StepFrame | src/components/Chat/ChatPanel.tsx:147-287 | any event appends at most one message, always an assistant one, and changes at most one existing message, a streaming assistant one |
| ChatMessages.DeltaSpec | src/components/Chat/ChatPanel.tsx:151-168 | a delta adds its content (or '') to the latest streaming message, which then holds text and keeps streaming, and leaves every other message alone; without one it appends a new streaming message |
| ChatMessages.Deltas | src/components/Chat/ChatPanel.tsx:151-168 | a run of delta events, one per chunk, in order |
| ChatMessages.DeltasConcatenate | src/components/Chat/ChatPanel.tsx:151-168 | deltas c1..cn on a streaming text message at the end leave it holding its text followed by c1 ++ ... ++ cn, and nothing before it changes |
| ChatMessages.StatusEventSpec | src/components/Chat/ChatPanel.tsx:171-186 | a `tool_call` or `agent_update` appends exactly one non-streaming message tagged with its kind when its content is not empty, and otherwise changes nothing |
| ChatMessages.ToolOutputArraySpec | src/components/Chat/ChatPanel.tsx:212-230 | an array turns the latest streaming message into a visualization holding the artifacts, still streaming; without one, one visualization message is appended |
| ChatMessages.ToolOutputTextSpec | src/components/Chat/ChatPanel.tsx:231-249 | text is added after "\n\nTool output: " to the latest streaming message holding text, passing over a streaming visualization; without one a plain message is appended; empty text changes nothing |
| ChatMessages.FinalSpec | src/components/Chat/ChatPanel.tsx:254-285 | a `message` event stops the latest streaming message and replaces its content unless it is a visualization; without one a finished message is appended |
| ChatMessages.FoldFrame | src/components/Chat/ChatPanel.tsx:147-287 | over a run of events the list grows by at most one message per event and user messages never change |
| ChatMessages.FoldAddsAssistants | src/components/Chat/ChatPanel.tsx:147-287 | every message the events add is an assistant message |
| ChatPanel.BuildRequest | src/components/Chat/ChatPanel.tsx:99-133 | the request's input list; its contract is stated by ChatPanel.BuildRequestSpec |
| ChatPanel.PlacedPage | src/components/Chat/ChatPanel.tsx:195-208 | the page after a visualization's cards are placed; its contract is stated by ChatPanel.PlacedPageGrows, PlacedPageStep and PlacedPageAllLoaded |
| ChatPanel.FormatAll | src/components/Chat/ChatPanel.tsx:106-122 | one request message per earlier message, in order |
| ChatPanel.BuildRequestSpec | src/components/Chat/ChatPanel.tsx:99-133 | the first input is a user message of the ingredient items with the typed text last; every earlier message follows, in order, with its role and its text or artifacts |
| ChatPanel.LoadedCountSpec | src/components/Chat/ChatPanel.tsx:199-208 | at most one card per artifact, and one per artifact exactly when every image loads |
| ChatPanel.PlacedPageGrows | src/components/Chat/ChatPanel.tsx:195-209 | placing a visualization keeps the page and adds one card per image that loads |
| ChatPanel.PlacedPageStep | src/components/Chat/ChatPanel.tsx:199-204 | an artifact whose image loads adds its card at the end |
| ChatPanel.PlacedPageAllLoaded | src/components/Chat/ChatPanel.tsx:195-209 | when every image loads there is one card per artifact, in order, the k-th at x + 620 k |
| ChatPanel.PlacedCardSpec | src/components/Chat/ChatPanel.tsx:199-204 | the k-th card sits 620 k to the right of the base point, level with it, active, showing the k-th artifact's image |
| ChatPanel.FindLast | src/components/Chat/ChatPanel.tsx:156-163 | the backward `for` loop returns exactly the specified scan result |
| ChatPanel.PlaceArtifacts | src/components/Chat/ChatPanel.tsx:196-208 | the placement loop yields exactly the specified page; `currentX` advances by 620 per artifact whether or not its image loaded |
| ChatPanel.UsersHoldTextAppend | src/components/Chat/ChatPanel.tsx:112 | lists whose user messages hold text concatenate to one |
| ChatPanel.FoldKeepsUsersHoldText | src/components/Chat/ChatPanel.tsx:112 | the events keep every user message holding text, so the `as string` cast of the next request is sound |
| ChatPanel.SubmissionKeepsUserTurns | src/components/Chat/ChatPanel.tsx:139-147 | after a submission and its events, the earlier user turns and the new user message stay where they were, and the list grows by at most one message per event |
| ChatPanel.DeltasFillPlaceholder | src/components/Chat/ChatPanel.tsx:143-168 | a reply of deltas only fills the placeholder with their concatenation, still streaming |
| ChatPanel.Panel.constructor | src/components/Chat/ChatPanel.tsx:16-18 | no messages, empty input, not loading |
| ChatPanel.Panel.SetInput | src/components/Chat/ChatPanel.tsx:510 | sets the typed text only |
| ChatPanel.Panel.Submit | src/components/Chat/ChatPanel.tsx:91-144 | blank input or a pending reply changes nothing; otherwise the request is built and the user message then the streaming placeholder are appended, the input cleared and loading set |
| ChatPanel.Panel.Accept | src/components/Chat/ChatPanel.tsx:96-144 | the accepted submission's request, the two new messages, the cleared input and the loading flag |
| ChatPanel.Panel.HandleEvent | src/components/Chat/ChatPanel.tsx:147-287 | one event: the messages follow the specified step and an array payload first places its cards |
| ChatPanel.Panel.Stream | src/components/Chat/ChatPanel.tsx:146-298 | the messages are the fold of the events, then exactly one apology when the stream raised; loading ends false |
| ChatPanel.Panel.HandleSubmit | src/components/Chat/ChatPanel.tsx:91-299 | refused exactly when the input is blank or a reply is loading, and then nothing changes; otherwise the request, the fold of the events after the user message and the placeholder, at most one apology, a cleared input and loading false |
| LegacyChatPanel.Ingredients | src/components/ChatPanel.tsx:101 | one message item per ingredient item, in order |
| LegacyChatPanel.OutgoingUserMessage | src/components/ChatPanel.tsx:98-104 | the outgoing user message; its contract is stated by LegacyChatPanel.OutgoingUserMessageSpec |
| LegacyChatPanel.OutgoingUserMessageSpec | src/components/ChatPanel.tsx:98-104 | the outgoing user message carries the ingredient items in order and the typed text as its last item |
| LegacyChatPanel.SetLastContent | src/components/ChatPanel.tsx:143-150 | one chunk's update; its contract is stated by LegacyChatPanel.SetLastContentSpec and SetLastContentTwice |
| LegacyChatPanel.SetLastContentSpec | src/components/ChatPanel.tsx:143-150 | only a streaming last message changes, taking the text and still streaming; otherwise nothing changes |
| LegacyChatPanel.SetLastContentTwice | src/components/ChatPanel.tsx:140-147 | each update writes the whole accumulated text, so only the latest one matters |
| LegacyChatPanel.ClearLastStreaming | src/components/ChatPanel.tsx:154-161 | the end of streaming; its contract is stated by LegacyChatPanel.ClearLastStreamingSpec |
| LegacyChatPanel.ClearLastStreamingSpec | src/components/ChatPanel.tsx:154-161 | the end of the stream stops only the last message and keeps its text; earlier messages are untouched; clearing again changes nothing |
| LegacyChatPanel.AfterChunks | src/components/ChatPanel.tsx:134-151 | the list after the chunks read so far; its contract is stated by LegacyChatPanel.AfterChunksSpec |
| LegacyChatPanel.AfterChunksSpec | src/components/ChatPanel.tsx:134-151 | after k chunks the streaming last message holds the concatenation of the first k, and nothing else changes |
| LegacyChatPanel.Outcome | src/components/ChatPanel.tsx:114-167 | one submission's outcome; its contract is stated by LegacyChatPanel.OutcomeSpec |
| LegacyChatPanel.OutcomeSpec | src/components/ChatPanel.tsx:114-167 | the placeholder appears only for an ok response with a body; a clean stream leaves one finished message holding all chunks; any failure adds exactly one apology, last |
| LegacyChatPanel.Panel.constructor | src/components/ChatPanel.tsx:15-17 | no messages, empty input, not loading |
| LegacyChatPanel.Panel.SetInput | src/components/ChatPanel.tsx:288 | sets the typed text only |
| LegacyChatPanel.Panel.ReadChunks | src/components/ChatPanel.tsx:134-151 | the read loop's accumulator leaves the messages as the specification after all chunks |
| LegacyChatPanel.Panel.HandleSubmit | src/components/ChatPanel.tsx:89-172 | refused exactly when the input is blank or a reply is loading, and then nothing changes; otherwise the message list sent, the user's text shown, the outcome, a cleared input and loading false |
| LegacyChatPanel.Panel.Accept | src/components/ChatPanel.tsx:93-171 | the accepted submission: message list sent, user text shown, reply, loading cleared |
| LegacyChatPanel.Panel.Reply | src/components/ChatPanel.tsx:114-167 | the `try` and its `catch` leave exactly the specified outcome |
| SuggestionsStream.Drain | src/utils/suggestionsHandler.ts:73-98 | after the inner loop the buffer holds no "\n\n" |
| SuggestionsStream.DrainReassembles | src/utils/suggestionsHandler.ts:73-76 | the cut frames, each with its blank line, followed by the tail give back the buffer, and no frame holds a blank line |
| SuggestionsStream.DrainAppend | src/utils/suggestionsHandler.ts:70-76 | draining after appending a chunk is draining the old buffer, then what it left with the chunk appended |
| SuggestionsStream.DrainFirstFrame | src/utils/suggestionsHandler.ts:74-76 | a complete frame stays the first frame when more text arrives |
| SuggestionsStream.FrameOutput | src/utils/suggestionsHandler.ts:75-97 | what one frame yields; its contract is stated by SuggestionsStream.FrameOutputIsDelta |
| SuggestionsStream.FrameOutputIsDelta | src/utils/suggestionsHandler.ts:75-97 | a frame yields at most one string, and only the non-empty content of a `delta` event parsed from the trimmed payload after `data:` |
| SuggestionsStream.FramesOutputAppend | src/utils/suggestionsHandler.ts:73-98 | the yields of a sequence of frames concatenate |
| SuggestionsStream.Consume | src/utils/suggestionsHandler.ts:63-99 | after every chunk the buffer holds no blank line |
| SuggestionsStream.Yields | src/utils/suggestionsHandler.ts:63-99 | everything the generator yields for a run of chunks; its contract is stated by SuggestionsStream.ChunkingInvariance and LeftoverIsIncompleteTail |
| SuggestionsStream.ChunkingInvariance | src/utils/suggestionsHandler.ts:63-99 | how the stream is cut into chunks does not matter: yields and buffer are those of the whole text drained at once |
| SuggestionsStream.LeftoverIsIncompleteTail | src/utils/suggestionsHandler.ts:64-68 | the tail discarded at the end holds no blank line, and the text is the complete frames followed by that tail |
| SuggestionsStream.DrainStep | src/utils/suggestionsHandler.ts:74-76 | one inner turn: the first frame's yield, then the rest of the buffer's |
| SuggestionsStream.FetchSuggestionsStream | src/utils/suggestionsHandler.ts:61-99 | the outer loop yields exactly the specified strings |
| SuggestionsStream.DrainFrames | src/utils/suggestionsHandler.ts:73-98 | the inner loop yields exactly the frames' outputs and keeps exactly the tail |
| SuggestionsStream.ProcessFrame | src/utils/suggestionsHandler.ts:75-97 | the trim, the `continue`s and the `try` yield exactly the frame's output |
| SuggestionsStream.ProcessPayload | src/utils/suggestionsHandler.ts:82-97 | a parsed `delta` with content is yielded; a parse failure, an `error` (its throw is caught) or a `complete` yields nothing |
| StorageNames.SanitizeChar | src/lib/tldrawAssetStore.ts:24 | one character gives itself exactly when it is allowed, and otherwise one '_' per UTF-16 code unit |
| StorageNames.Sanitize | src/lib/tldrawAssetStore.ts:24 | the result holds only allowed characters, one per UTF-16 code unit of the input |
| StorageNames.SanitizeBmp | src/lib/tldrawAssetStore.ts:24 | within the Basic Multilingual Plane, each allowed character is kept in place and every other one becomes '_' |
| StorageNames.SanitizeEmoji | supabase/functions/upload/index.ts:50 | an emoji, two code units without the `u` flag, becomes "__" |
| StorageNames.SanitizeSpec | src/lib/tldrawAssetStore.ts:24 | the result holds only allowed characters, one per UTF-16 code unit; a string is unchanged exactly when it is already safe; sanitising twice is sanitising once |
| StorageNames.CollapseWhitespace | src/lib/tldrawAssetStore.ts:25 | no white space is left |
| StorageNames.CollapseAfterSanitize | src/lib/tldrawAssetStore.ts:24-25 | after sanitising, the white-space replacement changes nothing |
| StorageNames.SanitizeAppend | supabase/functions/upload/index.ts:50 | sanitising distributes over concatenation |
| StorageNames.AllSafeAppend | src/lib/tldrawAssetStore.ts:32 | safe strings concatenate to a safe string |
| AssetStore.BaseName | src/lib/tldrawAssetStore.ts:23-25 | the base name; its contract is stated by AssetStore.BaseNameSpec |
| AssetStore.BaseNameSpec | src/lib/tldrawAssetStore.ts:23-25 | the base name sanitises `customName` when given (even ''), else `file.name`; it is safe, has one character per UTF-16 code unit of the chosen name, and within the Basic Multilingual Plane keeps every allowed character in place |
| AssetStore.RestOfLine | src/lib/tldrawAssetStore.ts:28 | `.*` matches the longest prefix without a line terminator |
| AssetStore.ExtensionFromType | src/lib/tldrawAssetStore.ts:27-30 | the extension; its contract is stated by AssetStore.ExtensionFromTypeSpec and ExtensionOfPng |
| AssetStore.ExtensionFromTypeSpec | src/lib/tldrawAssetStore.ts:27-30 | no extension exactly when the type lacks "image/"; otherwise "." and the rest of the line after its first occurrence |
| AssetStore.ExtensionOfPng | src/lib/tldrawAssetStore.ts:27-30 | "image/png" gives ".png" |
| AssetStore.ClientSideImageName | src/lib/tldrawAssetStore.ts:32 | the storage name; its contract is stated by AssetStore.ClientSideImageNameSpec |
| AssetStore.ClientSideImageNameSpec | src/lib/tldrawAssetStore.ts:32 | the name opens with the base name and '-' and ends with the id and extension; with a safe id and extension it is safe, and the upload function's sanitising keeps it unchanged |
| AssetStore.Resolve | src/lib/tldrawAssetStore.ts:97-105 | `src` when truthy, otherwise null |
| UploadFunction.ContentTypeOf | supabase/functions/upload/index.ts:57 | the content type; its contract is stated by UploadFunction.ContentTypeOfSpec |
| UploadFunction.ContentTypeOfSpec | supabase/functions/upload/index.ts:57 | the content type is the text after the header's first ':', cut at the next ':' and then at the first ';' |
| UploadFunction.HeaderHasColon | supabase/functions/upload/index.ts:35-57 | an accepted data URL's header has its ':' at position 4, so the content-type expression cannot fail |
| UploadFunction.PrepareUpload | supabase/functions/upload/index.ts:25-93 | the request handling up to the storage call; its contract is stated by UploadFunction.PrepareUploadErrors and PrepareUploadSuccess |
| UploadFunction.PrepareUploadErrors | supabase/functions/upload/index.ts:31-50 | "Invalid or missing image data URL" exactly when `file` is not a string starting with "data:image"; "Malformed data URL." exactly when it is but has not exactly one comma; success exactly when, further, `imageName` is not a truthy non-string |
| UploadFunction.PrepareUploadSuccess | supabase/functions/upload/index.ts:40-57 | the header, a comma and the payload give back the data URL; the content type comes from the header; the filename is the timestamp, '-' and the sanitised name or the random string with ".png" |
| LlmService.GenerateIngredientSummary | src/utils/llmService.ts:11-36 | the placeholder summary; its contract is stated by LlmService.SummaryOfBlank, SummaryOfLong, SummaryOfShort, SummaryStartsWithPrefix and GenerateIngredientSummaryBounded |
| LlmService.SummaryOfBlank | src/utils/llmService.ts:22-24 | blank content gives the prefix and the fixed empty-ingredient sentence |
| LlmService.SummaryOfLong | src/utils/llmService.ts:27-29 | content over 100 UTF-16 code units is quoted by the prefix holding its first 100 (99 when the cut would split a surrogate pair), then "..." |
| LlmService.SummaryOfShort | src/utils/llmService.ts:30-31 | content of at most 100 UTF-16 code units is quoted whole at the end and can be read back |
| LlmService.SummaryStartsWithPrefix | src/utils/llmService.ts:20-31 | every summary opens with the prefix |
| LlmService.SummaryPrefix | src/utils/llmService.ts:20 | the prefix; its contract is stated by LlmService.SummaryPrefixSpec |
| LlmService.SummaryPrefixSpec | src/utils/llmService.ts:20 | a titled prefix quotes the title; an untitled one is "This appears to be " |
| LlmService.GenerateIngredientSummaryBounded | src/utils/llmService.ts:22-31 | a summary's length is bounded whatever the content's length |
| ResizablePanel.NewWidth | src/components/ResizablePanel.tsx:33-36 | the reported width; its contract is stated by ResizablePanel.NewWidthSpec, NewWidthFollowsCursor and NoTravelKeepsWidth |
| ResizablePanel.NewWidthSpec | src/components/ResizablePanel.tsx:33-36 | never above the maximum; within range when the range is not empty; the unclamped width when in range, else the bound it passes |
| ResizablePanel.NewWidthFollowsCursor | src/components/ResizablePanel.tsx:33-36 | moving the cursor right widens a left panel and narrows a right one |
| ResizablePanel.NoTravelKeepsWidth | src/components/ResizablePanel.tsx:33-36 | no travel reports the start width when it is in range |
| ResizablePanel.Panel.constructor | src/components/ResizablePanel.tsx:15-22 | the bounds default to 200 and 600; no drag is on |
| ResizablePanel.Panel.SetWidth | src/components/ResizablePanel.tsx:14 | the parent's new width prop; nothing else changes |
| ResizablePanel.Panel.MouseDown | src/components/ResizablePanel.tsx:24-28 | a drag starts from the cursor and the current width |
| ResizablePanel.Panel.MouseMove | src/components/ResizablePanel.tsx:30-39 | a width, the clamp of the start width moved by the cursor's travel, is reported only while dragging; when the range is not empty every reported width stays in it |
| ResizablePanel.Panel.MouseUp | src/components/ResizablePanel.tsx:41-43 | the drag ends |
| JsText.TrimStart | src/components/Chat/ChatPanel.tsx:93 | removes exactly the leading white space |
| JsText.TrimEnd | src/components/Chat/ChatPanel.tsx:93 | removes exactly the trailing white space |
| JsText.IsBlankIffAllWhitespace | src/components/Chat/ChatPanel.tsx:93 | `!s.trim()` holds exactly when every character is white space |
| JsText.Utf16Length | src/utils/llmService.ts:27 | JavaScript's `length`: at least the number of characters and at most twice it, equal to it exactly when every character lies in the Basic Multilingual Plane |
| JsText.Utf16Prefix | src/utils/llmService.ts:29 | `substring(0, n)`: the longest prefix of at most `n` code units, the whole string when it is short enough |
| JsText.Utf16PrefixOfLong | src/utils/llmService.ts:27-29 | on longer text the prefix holds exactly `n` code units, or `n - 1` when the next character is a surrogate pair |
| JsText.IndexOfFrom | src/utils/suggestionsHandler.ts:74 | the first occurrence at or after the start, or -1 when there is none |
| JsText.IndexOf | src/utils/suggestionsHandler.ts:74 | -1 exactly when the pattern never occurs, otherwise its first occurrence |
| JsText.FirstIndexOfChar | supabase/functions/upload/index.ts:40 | the position of the first occurrence of the character, or the length |
| JsText.Split | supabase/functions/upload/index.ts:40 | at least one part, none holding the separator, and joining them gives back the string |
| JsText.SplitHead | supabase/functions/upload/index.ts:57 | the first part is the text before the first separator, and the others are the split of the text after it |
| JsText.SplitInTwo | supabase/functions/upload/index.ts:40-44 | with exactly two parts, the string is the first, the separator and the second |
| JsText.NatToString | supabase/functions/upload/index.ts:50 | decimal digits only, at least one |
| JsText.NatToStringRoundTrip | src/utils/pasteHandler.ts:34 | reading the digits back gives the number |
| JsText.NatToStringInjective | src/utils/pasteHandler.ts:34 | different numbers print differently, so "Image n" titles never collide |

## Left out

- Network and stream transport are inputs: `fetch`, `callChatStream`, the response reader and
  `TextDecoder`. The events and decoded chunks arrive as sequences. A failing stream is one
  flag, and a reply that never opens is `None`.
- The suggestion stream's connection and status checks (src/utils/suggestionsHandler.ts:39-56)
  throw before the frame loop starts. Only the loop is modelled.
- `JSON.parse` is a parameter: a partial function from a payload to an event.
- The upload function's `req.json()`, its base64 decoding and its storage calls are left out.
  So is the thrown-error-to-500 wrapping beyond the error message.
  A base64 decode failure would be raised before the file-name check; the model does not see it.
- `FileReader` and `Image` decoding are inputs: a data URL, and an optional natural size.
- tldraw internals are left out:
  - the merge semantics of `createShape`/`updateShape`;
  - store listeners and `setEditingShape`;
  - camera moves, `zoomToBounds` and `zoomToFit`.
  The pages become sequences of records. The panels' `selectedIds` stand for the editor's selection.
- The new panel's title double click (src/components/Ingredients/IngredientsPanel.tsx:149-151)
  only calls `setEditingShape` on the editor. It changes no state of the model and is not modelled.
- LegacyIngredientsPanel.Panel.TitleChange: models only the new title. The source also passes the
  type `text-ingredient-shape` to `updateShape` (src/components/IngredientsPanel.tsx:124), and
  whether that retypes an image card depends on tldraw.
- The clipboard write, focus and scroll handling, and `textareaRef` are left out.
- Concurrency is left out: overlapping submissions, React's batching of `setMessages`, and the
  await between the guard and the state updates.
- The `setTimeout` delay in src/utils/llmService.ts:17 is left out. So is the catch at lines
  32-35, which nothing in the try block can reach.
- Floating point: the 600 x 600 clamp is over `real`, for positive natural sizes. It has no
  double rounding and no division by zero.
- Values from outside are parameters: `Date.now`, `Math.random`, `uniqueId` and editor shape ids.
  So are the cursor position (`pageX`, `clientX`, an `int`) and the base point of a
  visualization.
- The `error` and `complete` events of the suggestions stream contribute nothing. For `error`,
  the model folds the throw and its catch (src/utils/suggestionsHandler.ts:88-97) into that
  outcome. The console logging is not modelled.
- PasteHandler.Handler.HandleGlobalPaste: the loop searches for the image file first and then
  adds it, where the source adds it inside the loop. The resulting state is the same.
- ChatPanel.FormatPrevious: a user message whose content is an artifact array cannot arise.
  The `UsersHoldText` invariant rules it out, so the `as string` cast at
  src/components/Chat/ChatPanel.tsx:112 is always applied to text.
- The visualize-API call in `callVisualizeApi` beyond the default-instruction rule is left out.
  That covers the request, the response handling and the artifact list it returns.
- IngredientHandler.SummaryProps: follows the `{title, description}` record the creators read.
  That is not what the imported call returns. src/utils/ingredientHandler.ts:3 imports
  `generateIngredientSummary` from `./llmService`, which takes two parameters and resolves to a
  string (src/utils/llmService.ts:11). So the third argument (ingredientHandler.ts:32, 81) is
  ignored, and `summary.title` and `summary.description` (lines 37, 46, 86, 95) are `undefined`.
  Whether tldraw's `title` validator then rejects the shape, and sends the call into the catch,
  is tldraw's business. The model takes the summary as an abstract `Result<Summary>` input,
  and does not connect `LlmService` to the creators.
- LlmService.SummaryOfLong: when the 100th code unit is the first half of a surrogate pair,
  `substring(0, 100)` keeps that lone half. No `char` can hold it, so the modelled excerpt ends
  one code unit earlier.
- The character positions `IndexOf` and `FirstIndexOfChar` return count characters, not UTF-16
  code units. The core only uses them to cut the same string again, so the resulting strings agree.
- A delta landing on a streaming visualization is modelled. JavaScript converts the artifact
  array to text, giving one "[object Object]" per artifact joined by commas, and the
  delta is appended to that.

## Notes on the code

- A visualization adds one card per artifact whose image loads, placed from the base point
  620 apart (src/components/Chat/ChatPanel.tsx:196-204). `addAgentImageOutput` catches each
  failure itself (src/utils/chatHandler.ts:151-153), so `currentX` advances for every artifact
  and a failed image leaves a gap (`ChatPanel.PlacedPageGrows`, `ChatPanel.LoadedCountSpec`).
- The doc-comment of `formatIngredientsForLLM` (src/utils/formatIngredientsForLLM.ts:17-29) shows
  items of type `text` and `image_url`. The code emits `input_text` and `input_image` with
  `detail: 'auto'`, and so does the model.
- A missing `title` or `notes` on an agent artifact is handled as the code does:
  `artifact.title || 'AI Generated'` and `artifact.notes?.trim()`. This holds even though the
  `ImageDesignArtifact` type declares both fields as strings.
