# House design CMS: a Dafny model of its core

This project models the core of a small content-management system for a house-design company. The system has an Angular front end and a Go back end. The model covers four areas.

- **Category hierarchy.**
  - The front end normalises the category records it fetches and builds a two-level tree from them.
  - The admin page reorders siblings by moving them up or down or by drag and drop, then sends a dense `display_order` batch.
  - The category dialog prepares the create and update payloads.
  - The server derives slugs, makes them unique, computes levels and default order, and merges partial updates.
  - The navbar and the home page consume the tree.
- **String transformers and validators.**
  - Slug generators.
  - Backend-URL-to-relative converters and the `<img src>` rewriter.
  - Icon-value classification.
  - File-type and size validators, on the client and on the server.
  - The SEO preview score.
  - The CORS origin predicate.
- **Serialisers and parsers.**
  - The sitemap XML writer (the Sitemaps protocol 0.9 of sitemaps.org).
  - The `.env` line parser.
  - Tag splitting and the HTML-stripping truncation of the article list.
  - The logger's message format.
- **Small state machines.**
  - The home carousel index.
  - The article-list paging.
  - The logger's level threshold.
  - The dialogs' form state.

Each source file of the core is one Dafny module; `Text`, `Slugs` and `StableSort` hold the string, slug and sorting definitions they share.

- **Pure code becomes functions and lemmas.** The TypeScript and Go code that only computes is written as functions with named results. Lemmas state its properties for all inputs.
- **State-changing code becomes classes and methods.** The code that updates fields or arrays is written as classes whose methods state the whole new state. Loops carry invariants and are proved against the functions above.
- **Everything else is a parameter.** This covers:
  - the database, HTTP responses and the process environment;
  - the clock;
  - the Unicode case mapping, `normalize('NFD')`, `atob` and `btoa`.

JavaScript and Go strings are `seq<char>`.

## Model

| member | source | states |
|---|---|---|
| Text.FindFrom | frontend/src/app/services/data.service.ts:22 | the leftmost occurrence at or after the start index, and no earlier one; none when the pattern does not occur |
| Text.FindAfterPrefix | backend/config/config.go:25 | in a text whose prefix lacks a character, the first occurrence of that character is right after the prefix |
| Text.ContainsIff | frontend/src/app/services/data.service.ts:22 | `includes` holds exactly when the pattern occurs somewhere |
| Text.ReplaceFirstOfPrefix | frontend/src/app/utils/url-converter.util.ts:23 | replacing a leading pattern swaps that prefix and keeps the rest |
| Text.ReplaceAllCharConcat | backend/handlers/handlers.go:1054-1060 | `strings.ReplaceAll` with one character works piece by piece |
| Text.DeleteCharElements | backend/handlers/handlers.go:1055-1060 | deleting a character removes exactly that character |
| Text.FilterMembers | frontend/src/app/pages/article-list/article-list.component.ts:131 | `filter` keeps exactly the elements that pass |
| Text.FilterConcat | frontend/src/app/pages/article-list/article-list.component.ts:131 | `filter` keeps the survivors' order |
| Text.Trim | frontend/src/app/pages/article-list/article-list.component.ts:131 | a trimmed string neither starts nor ends with white space |
| Text.TrimOfEnds | backend/config/config.go:30-31 | a string that neither starts nor ends with white space is its own trim |
| Text.TrimKeepsOut | backend/config/config.go:30-31 | trimming adds no character |
| Text.TrimSubsequence | backend/config/config.go:30-31 | a trim is a contiguous slice of its input |
| Text.Split | frontend/src/app/pages/article-list/article-list.component.ts:131 | `split` gives at least one piece, and no piece holds the separator |
| Text.SplitOfJoin | frontend/src/app/pages/article-list/article-list.component.ts:131 | splitting the join of separator-free pieces gives back the pieces |
| Text.SplitJoin | frontend/src/app/pages/article-list/article-list.component.ts:131 | joining the pieces of a split with the separator gives back the string |
| Text.NatToDecimal | backend/handlers/handlers.go:192 | `%d` prints at least one character, and only decimal digits |
| Text.DecimalRoundTrip | backend/handlers/handlers.go:192 | reading back the printed digits gives the number |
| Text.NatToDecimalInjective | backend/handlers/handlers.go:192 | distinct counters print differently |
| StableSort.SortBy | frontend/src/app/services/data.service.ts:104-111 | `Array.prototype.sort` with a key comparator is a permutation of its input, of the same length |
| StableSort.InsertSorted | frontend/src/app/services/data.service.ts:104-111 | inserting into a sorted sequence keeps it sorted |
| StableSort.InsertKeyClass | frontend/src/app/services/data.service.ts:104-111 | insertion keeps the order among elements with equal keys |
| StableSort.SortBySorted | frontend/src/app/services/data.service.ts:104-111 | the result is sorted by key |
| StableSort.SortByStable | frontend/src/app/services/data.service.ts:104-111 | the sort is stable: elements with equal keys keep their input order |
| StableSort.SortByOfSorted | frontend/src/app/services/data.service.ts:104-111 | sorting a sorted sequence changes nothing |
| StableSort.StableSortUnique | frontend/src/app/services/data.service.ts:104-111 | every sorted, order-preserving rearrangement is this one, so any stable sort agrees with the model |
| Slugs.FilterChars | frontend/src/app/components/category-dialog/category-dialog.component.ts:406-407 | a character survives exactly when it occurs in the input and is in the kept class |
| Text.FilterStep | backend/handlers/handlers.go:1061-1066 | one step of a character-by-character filter loop adds the character exactly when it is kept |
| Slugs.FilterAfterDelete | backend/handlers/handlers.go:1055-1066 | deleting a character that the final filter drops anyway changes nothing |
| Text.FilterAll | frontend/src/app/components/category-dialog/category-dialog.component.ts:406-407 | a string made only of kept characters passes unchanged |
| Slugs.TrimAll | frontend/src/app/components/category-dialog/category-dialog.component.ts:408 | `trim` keeps a contiguous piece, so a property of every character survives it |
| Slugs.CollapseRuns | frontend/src/app/components/category-dialog/category-dialog.component.ts:409 | `replace(/\s+/g, '-')` never lengthens the string |
| Slugs.CollapseRunsChars | frontend/src/app/components/category-dialog/category-dialog.component.ts:409 | after collapsing, every character is a hyphen or an input character outside the collapsed class |
| Slugs.CollapseRunsNone | frontend/src/app/components/category-dialog/category-dialog.component.ts:409 | a string with nothing to collapse is unchanged |
| Slugs.ConsNoDouble | frontend/src/app/components/post-dialog/post-dialog.component.ts:646 | prefixing a character keeps "no double hyphen" unless both are hyphens |
| Slugs.CollapseHyphensNoDouble | frontend/src/app/components/post-dialog/post-dialog.component.ts:646 | `replace(/-+/g, '-')` leaves no two hyphens side by side |
| Slugs.CollapseLast | frontend/src/app/components/category-dialog/category-dialog.component.ts:409 | a last character outside the collapsed class stays last |
| Slugs.AllWeaken | frontend/src/app/components/category-dialog/category-dialog.component.ts:402-410 | a per-character property carries over to any weaker one |
| Slugs.CategorySlug | frontend/src/app/components/category-dialog/category-dialog.component.ts:402-410 | the category dialog's slug pipeline (definition); properties in Slugs.CategorySlugAlphabet, Slugs.CategorySlugEnds and Slugs.CategorySlugIdempotent |
| Slugs.CategorySlugAlphabet | frontend/src/app/components/category-dialog/category-dialog.component.ts:402-410 | the category slug contains only `[a-z0-9-]` and so no white space, for any case folding |
| Slugs.TrimCollapseEnds | frontend/src/app/components/category-dialog/category-dialog.component.ts:408-409 | after trimming and collapsing, the first and last characters are input characters, not made-up hyphens |
| Slugs.TrimCollapseClean | frontend/src/app/components/category-dialog/category-dialog.component.ts:408-409 | trimming and collapsing leave a string without white space alone |
| Slugs.CategorySlugEnds | frontend/src/app/components/category-dialog/category-dialog.component.ts:402-410 | a non-empty category slug starts and ends with a character of the filtered name, never with a hyphen made from white space |
| Slugs.CategorySlugIdempotent | frontend/src/app/components/category-dialog/category-dialog.component.ts:402-410 | slugging a slug changes nothing, provided case folding is the identity on `[a-z0-9-]` |
| Slugs.TitleSlug | frontend/src/app/components/post-dialog/post-dialog.component.ts:639-650 | the post dialog's slug pipeline (definition); properties in Slugs.TitleSlugShape and Slugs.TitleSlugKeepsEdgeHyphens |
| Slugs.TitleSlugShape | frontend/src/app/components/post-dialog/post-dialog.component.ts:639-650 | the title slug contains only `[a-z0-9-]` and never two hyphens in a row; the final `trim` has nothing left to remove |
| Slugs.TitleSlugKeepsEdgeHyphens | frontend/src/app/components/post-dialog/post-dialog.component.ts:643-647 | the title " a " gives "-a-": spaces at the ends have already become hyphens when `trim` runs |
| Models.OrZero | frontend/src/app/services/data.service.ts:48-50 | `x \|\| 0` keeps a truthy number and turns null, a missing field or 0 into 0 |
| Models.OrString | frontend/src/app/services/data.service.ts:46 | `x \|\| d` keeps a non-empty string and otherwise gives the default |
| Models.NormalizeCategory | frontend/src/app/services/data.service.ts:40-54 | field by field, the category as the front end should see it: the category type defaults to "product", a falsy parent becomes null, falsy numbers become 0, `is_active` defaults to true, and the SEO fields pass through (the corrected mapping) |
| Models.NormalizeCategoryAsWritten | frontend/src/app/services/data.service.ts:40-54 | the mapping as written: every SEO field is dropped, and otherwise the result is the corrected mapping |
| Models.GetCategories | frontend/src/app/services/data.service.ts:35-57 | the normalisation as written applied to each element, in order and with the same length: every fetched category keeps its id and carries no SEO field |
| Models.GetCategoriesIntended | frontend/src/app/services/data.service.ts:35-57 | the corrected list: each category keeps the SEO fields the API sent, and otherwise equals the list as written |
| DataService.Lookup | frontend/src/app/services/data.service.ts:79-88 | the id-to-item map has an entry for every record id, and each entry is a record carrying that id |
| DataService.LookupLast | frontend/src/app/services/data.service.ts:79-88 | when ids repeat, the last record with an id wins |
| DataService.LookupDistinct | frontend/src/app/services/data.service.ts:79-88 | with distinct ids, every record is its own entry |
| DataService.PrefixStep | frontend/src/app/services/data.service.ts:90-102 | one more record extends either the root list or its parent's child list, at the end |
| DataService.UnsortedRootsMembers | frontend/src/app/services/data.service.ts:90-102 | the root list holds exactly the records whose parent is null, 0 or unknown |
| DataService.RootsHaveItems | frontend/src/app/services/data.service.ts:90-102 | every root id has an item |
| DataService.ChildIdsMembers | frontend/src/app/services/data.service.ts:90-102 | a parent's child list holds exactly the records whose known parent it is |
| DataService.CreateItems | frontend/src/app/services/data.service.ts:79-88 | the first pass creates one collapsed, childless item per id |
| DataService.LinkStep | frontend/src/app/services/data.service.ts:93-97 | linking a record under its parent keeps the second-pass invariant |
| DataService.KeepStep | frontend/src/app/services/data.service.ts:98-100 | a record without a known parent leaves every child list alone |
| DataService.LinkItems | frontend/src/app/services/data.service.ts:90-102 | the second pass yields the unsorted root list and the linked items |
| DataService.SortStep | frontend/src/app/services/data.service.ts:104-109 | sorting one more root's children keeps the third-pass invariant; a root met twice is already sorted |
| DataService.SortRootChildren | frontend/src/app/services/data.service.ts:104-109 | after the third pass, exactly the children of root items are sorted by order key |
| DataService.SortChildrenOf | frontend/src/app/services/data.service.ts:105-108 | one iteration sorts the children of one more root, and a root met twice stays sorted |
| DataService.ItemsAreBuilt | frontend/src/app/services/data.service.ts:75-112 | each built item is collapsed, has children exactly when its child list is not empty, and has its children sorted when it is a root |
| DataService.TreeRoots | frontend/src/app/services/data.service.ts:75-112 | the roots `buildCategoryTree` returns (definition); characterised by DataService.BuildCategoryTree, DataService.RootCount and DataService.PlacedExactlyOnce |
| DataService.BuiltItem | frontend/src/app/services/data.service.ts:75-112 | the tree item `buildCategoryTree` leaves for an id (definition); characterised by DataService.ItemsAreBuilt and DataService.ChildCount |
| DataService.BuildCategoryTree | frontend/src/app/services/data.service.ts:75-112 | the returned roots are a permutation of the unresolved records, sorted by `display_order \|\| order_index \|\| 0`; every item has the built shape |
| DataService.RootCount | frontend/src/app/services/data.service.ts:90-102 | with distinct ids, a record is in the root list once if its parent does not resolve and never otherwise |
| DataService.ChildCount | frontend/src/app/services/data.service.ts:90-102 | with distinct ids, a record is among a parent's children once if that is its known parent and never otherwise |
| DataService.PlacedExactlyOnce | frontend/src/app/services/data.service.ts:75-112 | every record appears exactly once in the tree: at the root or under its parent, and nowhere else |
| DataService.SelfParentHidden | frontend/src/app/services/data.service.ts:90-102 | a record that names itself as parent is linked under itself and vanishes from the root list |
| Admin.ConvertImageUrl | frontend/src/app/pages/admin/admin.component.ts:524-552 | the page's `convertImageUrl`, branch by branch (definition); its properties are Admin.LocalhostHost, Admin.ConvertBranch, Admin.ConvertBackendUrl, Admin.ConvertLocalhostUrl and Admin.ConvertKeepsOthers |
| Admin.LocalhostHost | frontend/src/app/pages/admin/admin.component.ts:529-548 | a backend URL that also starts with `http://localhost:8080/` has the host "localhost" over http |
| Admin.ConvertBranch | frontend/src/app/pages/admin/admin.component.ts:536-548 | a non-localhost URL with ":8080/" takes the branch of its own scheme |
| Admin.ConvertNonLocalBackendUrl | frontend/src/app/pages/admin/admin.component.ts:536-548 | `scheme://host:8080/rest` with a host other than localhost becomes `/rest` |
| Admin.ConvertBackendUrl | frontend/src/app/pages/admin/admin.component.ts:524-552 | every absolute backend URL `http(s)://host:8080/rest` becomes the relative `/rest`, whichever branch handles it |
| Admin.ConvertLocalhostUrl | frontend/src/app/pages/admin/admin.component.ts:529-534 | the localhost prefix becomes "/" |
| Admin.ConvertKeepsOthers | frontend/src/app/pages/admin/admin.component.ts:524-552 | relative paths and URLs without ":8080/" come back unchanged, so converting twice is converting once |
| Admin.OrderUpdates | frontend/src/app/pages/admin/admin.component.ts:243-247 | the batch lists the ids in the list's order |
| Admin.OrderUpdatesDense | frontend/src/app/pages/admin/admin.component.ts:243-247 | the batch numbers the list 1..N without gaps or repeats, strictly increasing |
| Admin.ApplyOrder | backend/handlers/handlers.go:355-388 | storing a batch keeps the set of categories |
| Admin.ApplyOrderEffect | backend/handlers/handlers.go:371-378 | each listed category gets its listed display order, and every other category is untouched |
| Admin.ReorderSurvivesRebuild | frontend/src/app/pages/admin/admin.component.ts:243-259 | once the server has stored the batch, the stable sort of the next rebuild reproduces the order the user made |
| Admin.Swap | frontend/src/app/pages/admin/admin.component.ts:215-241 | the destructuring swap of two slots (definition); properties in Admin.SwapEffect and Admin.SwapPermutation |
| Admin.SwapEffect | frontend/src/app/pages/admin/admin.component.ts:215-241 | the swap exchanges the two slots, leaves the rest alone and undoes itself |
| Admin.SwapPermutation | frontend/src/app/pages/admin/admin.component.ts:215-241 | moving up or down is a permutation |
| Admin.Moved | frontend/src/app/pages/admin/admin.component.ts:282 | the list after `moveItemInArray` from one clamped index to another (definition); properties in Admin.MovedAt, Admin.MovedPermutation and Admin.MovedUndo, and Admin.MoveItemInArray computes it in place |
| Admin.MovedAt | frontend/src/app/pages/admin/admin.component.ts:280-292 | after a drop, each slot holds the item it came from: the dropped item at the target, and the items in between shifted by one |
| Admin.MovedPermutation | frontend/src/app/pages/admin/admin.component.ts:280-292 | a drop is a permutation |
| Admin.MovedUndo | frontend/src/app/pages/admin/admin.component.ts:280-292 | dragging the item back restores the list |
| Admin.ShiftThenPlace | frontend/src/app/pages/admin/admin.component.ts:280-292 | the shift loop followed by the placement is the move |
| Admin.ShiftBetween | frontend/src/app/pages/admin/admin.component.ts:282 | the loop of the in-place move: every slot between the source and the target takes its neighbour's item, one step at a time, and the target slot still awaits the dropped item |
| Admin.ShiftStep | frontend/src/app/pages/admin/admin.component.ts:282 | one iteration of the shift changes exactly one slot, to the item the finished move puts there |
| Admin.MoveItemInArray | frontend/src/app/pages/admin/admin.component.ts:282 | the in-place shift moves the item from the clamped source index to the clamped target index; equal clamped indices and an empty list leave the array alone |
| Admin.AdminPage.constructor | frontend/src/app/pages/admin/admin.component.ts:94-123 | the page starts with no categories, no requests and no refreshes |
| Admin.AdminPage.UpdateOrder | frontend/src/app/pages/admin/admin.component.ts:243-278 | sends the dense batch of the list as it now stands, and changes nothing else |
| Admin.AdminPage.OnOrderResponse | frontend/src/app/pages/admin/admin.component.ts:249-257 | only a failed order update reloads the data |
| Admin.AdminPage.Relink | frontend/src/app/pages/admin/admin.component.ts:215-292 | the array a move handler reorders is the page's own list: afterwards the named list (the main list, or one item's children) shows the array, and every other list and request log is unchanged |
| Admin.AdminPage.MoveUp | frontend/src/app/pages/admin/admin.component.ts:215-241 | `moveCategoryUp` and `moveSubcategoryUp`: swaps with the previous item in the displayed list itself (the main list or the parent's children) and sends the new order; at the top nothing happens; no other list changes |
| Admin.AdminPage.MoveDown | frontend/src/app/pages/admin/admin.component.ts:215-241 | `moveCategoryDown` and `moveSubcategoryDown`: swaps with the next item in the displayed list itself and sends the new order; at the bottom nothing happens; no other list changes |
| Admin.AdminPage.OnDrop | frontend/src/app/pages/admin/admin.component.ts:280-292 | a drop at another index moves the item within the displayed list itself and sends the new order; a drop in place does nothing; no other list changes |
| Admin.AdminPage.DeleteCategory | frontend/src/app/pages/admin/admin.component.ts:173-175 | a delete request goes out only after confirmation |
| Admin.AdminPage.OnDeleteResponse | frontend/src/app/pages/admin/admin.component.ts:176-184 | only a successful delete reloads the data |
| Admin.AdminPage.ToggleCategory | frontend/src/app/pages/admin/admin.component.ts:188-190 | flips one item's `expanded` flag and nothing else |
| Admin.AdminPage.LoadCategoryTree | frontend/src/app/pages/admin/admin.component.ts:94-123 | the main list is the built tree's level-0 or parentless roots, taken after thumbnail conversion; an error gives the empty list |
| Admin.WithConvertedThumbnails | frontend/src/app/pages/admin/admin.component.ts:103-108 | only the thumbnail changes, and it changes by `convertImageUrl` |
| Admin.MainFilter | frontend/src/app/pages/admin/admin.component.ts:113 | `tree.filter(cat => cat.level === 0 \|\| !cat.parent_id)` on root ids (definition); its members are characterised by Admin.MainFilterMembers |
| Admin.MainFilterMembers | frontend/src/app/pages/admin/admin.component.ts:113 | the main list keeps exactly the roots of level 0 or without a parent |
| CategoryDialog.OpenedForm | frontend/src/app/components/category-dialog/category-dialog.component.ts:358-391 | an edited category fills the form field by field, with missing SEO fields as '' and a missing type as 'parent'; a truthy preset parent then overrides the parent |
| CategoryDialog.PayloadOf | frontend/src/app/components/category-dialog/category-dialog.component.ts:416-461 | the payload copies the texts, defaults the type and `is_active`, sends the thumbnail only when it is not empty, and sets `parent_id` as follows: null for a regular or main category, the preset parent before the form's parent, and left out only for a subcategory with no parent at all |
| CategoryDialog.RequestOf | frontend/src/app/components/category-dialog/category-dialog.component.ts:473-475 | an update of the edited category's id when there is one, a create otherwise, carrying the payload |
| CategoryDialog.NameSlug | frontend/src/app/components/category-dialog/category-dialog.component.ts:393-399 | a name change regenerates the slug only while creating and only for a non-empty name |
| CategoryDialog.NameSlugAlphabet | frontend/src/app/components/category-dialog/category-dialog.component.ts:393-399 | a regenerated slug is in `[a-z0-9-]` |
| CategoryDialog.Dialog.constructor | frontend/src/app/components/category-dialog/category-dialog.component.ts:322-356 | the default form; the parent is required exactly for a subcategory dialog that has the category list but no preset parent |
| CategoryDialog.Dialog.OnInit | frontend/src/app/components/category-dialog/category-dialog.component.ts:358-400 | the form becomes the opened form, and nothing else changes |
| CategoryDialog.Dialog.OnNameChange | frontend/src/app/components/category-dialog/category-dialog.component.ts:393-399 | the name changes, and the slug follows it only while creating |
| CategoryDialog.Dialog.OnCategoryTypeChange | frontend/src/app/components/category-dialog/category-dialog.component.ts:504-517 | "regular" clears the parent and its requirement; "parent" in a subcategory dialog without a preset parent requires one again |
| CategoryDialog.Dialog.OnSave | frontend/src/app/components/category-dialog/category-dialog.component.ts:416-479 | a valid form sends exactly one create-or-update request and starts loading; an invalid form sends nothing |
| CategoryDialog.Dialog.OnResponse | frontend/src/app/components/category-dialog/category-dialog.component.ts:477-500 | either answer ends loading and changes nothing else |
| CategoryDialog.EditRoundTrip | frontend/src/app/components/category-dialog/category-dialog.component.ts:358-479 | opening a category and saving it untouched sends back that category's own fields |
| CategoryDialog.EditErasesSeo | frontend/src/app/services/data.service.ts:40-54 | with the normalisation as written, an untouched edit of a category that has a meta title sends an empty meta title |
| CategoryDialog.EditKeepsSeo | frontend/src/app/components/category-dialog/category-dialog.component.ts:378-381 | with the corrected normalisation, an untouched edit sends back every SEO field the API record had |
| Handlers.FindRow | backend/handlers/handlers.go:159-167 | a found row carries the requested id; no row is found only when none has that id |
| Handlers.MaxSiblingOrder | backend/handlers/handlers.go:208-218 | `COALESCE(MAX(order_index), 0)` over the siblings (definition); characterised by Handlers.MaxSiblingOrderBounds |
| Handlers.MaxSiblingOrderBounds | backend/handlers/handlers.go:208-218 | `COALESCE(MAX(order_index), 0)` among the siblings: at least every sibling's index, attained by one of them, and 0 without siblings |
| Handlers.MapRunes | backend/handlers/handlers.go:1053 | `strings.ToLower` maps every rune and keeps the length |
| Handlers.GenerateSlug | backend/handlers/handlers.go:1052-1069 | the replacements followed by the rune loop compute exactly the slug function |
| Handlers.GoSlug | backend/handlers/handlers.go:1052-1069 | the backend's `generateSlug` (definition); properties in Handlers.GoSlugSimple, Handlers.GoSlugAlphabet, Handlers.GoSlugSpace and Handlers.GoSlugIdempotent, and Handlers.GenerateSlug computes it with the rune loop |
| Handlers.GoSlugSimple | backend/handlers/handlers.go:1052-1069 | the six deletions are redundant: the slug is the lower-cased title with spaces as hyphens, filtered to `[a-z0-9-]` |
| Handlers.GoSlugAlphabet | backend/handlers/handlers.go:1052-1069 | the slug contains only `[a-z0-9-]` |
| Handlers.GoSlugSpace | backend/handlers/handlers.go:1054 | a space between two words becomes one hyphen between their slugs |
| Handlers.GoSlugIdempotent | backend/handlers/handlers.go:1052-1069 | slugging a slug changes nothing |
| Handlers.CandidateInjective | backend/handlers/handlers.go:192 | distinct counters give distinct candidates `slug-n` |
| Handlers.FirstFree | backend/handlers/handlers.go:178-206 | the slug the uniqueness loop must end on: the slug itself when free, else the first free `slug-n` (definition); properties in Handlers.FirstFreeProperties and Handlers.FreeNotBefore, and Handlers.UniqueSlug meets it |
| Handlers.FirstFreeProperties | backend/handlers/handlers.go:178-206 | the slug the search settles on is never taken, is the slug itself when that is free, and is determined by the slug and the taken set |
| Handlers.FreeNotBefore | backend/handlers/handlers.go:186-202 | no free candidate comes before the one the search stops at |
| Handlers.TriedNext | backend/handlers/handlers.go:191-202 | each new candidate differs from every one already tried |
| Handlers.UniqueSlug | backend/handlers/handlers.go:186-206 | the counter loop ends, and returns the first free `slug-1`, `slug-2`, … |
| Handlers.PrefixedSlugOnce | backend/handlers/handlers.go:170-173 | a subcategory slug starts with the parent slug and a hyphen, and is never prefixed twice |
| Handlers.CreateCategory | backend/handlers/handlers.go:143-232 | an unknown parent fails with 400 and nothing else fails; otherwise the created row is the request with the level one below its parent (0 at the root), the first free slug derived from the request, and a default order one past its siblings' maximum |
| Handlers.MergedFields | backend/handlers/handlers.go:264-288 | the partial-update merge rules as a relation between stored row, request and result (definition); Handlers.MergeRequest establishes it |
| Handlers.MergeRequest | backend/handlers/handlers.go:264-288 | name, slug and type are overwritten only when non-empty; every other text field and `is_active` are overwritten unconditionally; the id and order fields are kept |
| Handlers.UpdateCategory | backend/handlers/handlers.go:234-341 | 404 for an unknown id and 400 for an unknown parent, and no other failure; a regular category loses its parent and gets level 0; otherwise a requested parent sets the level one below it |
| Handlers.GetBaseUrl | backend/handlers/handlers.go:25-44 | the scheme comes from `X-Forwarded-Proto` when set and otherwise from TLS; the host comes from `X-Forwarded-Host` when set and otherwise from the request |
| Handlers.CheckMediaReplacement | backend/handlers/handlers.go:957-1001 | the checks run in the source's order (401, type, file present, content type, size), the first failure is the answer, and an upload is accepted exactly when it passes them all |
| Home.VisiblePosts | frontend/src/app/pages/home/home.component.ts:64-80 | the posts the page keeps for the visitor (definition); characterised by Home.VisiblePostsMembers |
| Home.VisiblePostsMembers | frontend/src/app/pages/home/home.component.ts:64-80 | visitors see exactly the published posts and admins every post, each with only its image URL converted |
| Home.CategoryPosts | frontend/src/app/pages/home/home.component.ts:337-341 | `getCategoryPosts` without its date sort (definition); characterised by Home.CategoryPostsMembers |
| Home.CategoryPostsMembers | frontend/src/app/pages/home/home.component.ts:337-339 | the category's posts are exactly the posts with that `category_id` |
| Home.AttachChildren | frontend/src/app/pages/home/home.component.ts:92-98 | the `forEach` loop attaches to each main category its filtered children |
| Home.MainCategories | frontend/src/app/pages/home/home.component.ts:82-101 | the level-0 categories with their children (definition); characterised by Home.MainCategoriesShape, and Home.AttachChildren computes the children loop |
| Home.MainCategoriesShape | frontend/src/app/pages/home/home.component.ts:82-101 | the main categories are level 0 with converted thumbnails, and each carries exactly the categories whose parent is it |
| Home.Carousel.constructor | frontend/src/app/pages/home/home.component.ts:50 | the carousel starts with no images, at index 0 |
| Home.Carousel.LoadHomepageMedia | frontend/src/app/pages/home/home.component.ts:277-293 | the images become the converted response, or none on error; the index is not reset |
| Home.Carousel.NextSlide | frontend/src/app/pages/home/home.component.ts:309-313 | moves forward and wraps to the first image; an index that points at an image still does afterwards |
| Home.Carousel.PreviousSlide | frontend/src/app/pages/home/home.component.ts:315-321 | moves back and wraps from the first image to the last; an index that points at an image still does afterwards |
| Home.Carousel.GoToSlide | frontend/src/app/pages/home/home.component.ts:323-327 | only an index of an existing image is taken |
| Home.NextThenPrevious | frontend/src/app/pages/home/home.component.ts:309-321 | `previousSlide` undoes `nextSlide` |
| Home.IsMatIcon | frontend/src/app/pages/home/home.component.ts:400-404 | `isMatIcon` (definition); properties in Home.UrlsAreNotMatIcons, Navbar.CategoryIconIsMatIcon and IconSelector.IsMatIconUrlIsHomeTest |
| Home.UrlsAreNotMatIcons | frontend/src/app/pages/home/home.component.ts:400-404 | a URL or a path is never taken for an icon name |
| Navbar.Navbar.constructor | frontend/src/app/components/navbar/navbar.component.ts:30-34 | the menu starts empty and closed |
| Navbar.Navbar.OnCategories | frontend/src/app/components/navbar/navbar.component.ts:44-68 | the menu is the level-0 roots of the tree built from the active categories; a failed fetch gives an empty menu |
| Navbar.Navbar.ToggleMobileMenu | frontend/src/app/components/navbar/navbar.component.ts:107-109 | flips the mobile menu and nothing else |
| Navbar.Navbar.CloseMobileMenu | frontend/src/app/components/navbar/navbar.component.ts:111-113 | closes the mobile menu and nothing else |
| Navbar.Menu | frontend/src/app/components/navbar/navbar.component.ts:44-55 | the active-filter, tree build and level-0 filter of the menu (definition); properties in Navbar.MenuIsActiveLevelZero and Navbar.OrphanLeftOut |
| Navbar.MenuIsActiveLevelZero | frontend/src/app/components/navbar/navbar.component.ts:44-55 | every menu entry is an active level-0 category from the input, and every item in the tree, children included, is active |
| Navbar.OrphanLeftOut | frontend/src/app/components/navbar/navbar.component.ts:50-52 | an active child of an inactive parent becomes a root of the built tree, yet is left out of the menu because its level is not 0 |
| Navbar.CategoryIcon | frontend/src/app/components/navbar/navbar.component.ts:75-100 | the slug-to-icon table with its default (definition); Navbar.CategoryIconIsMatIcon proves every icon passes `isMatIcon` |
| Navbar.CategoryIconIsMatIcon | frontend/src/app/components/navbar/navbar.component.ts:75-100 | every icon the table gives, the default included, passes the home page's Material-icon test |
| Navbar.WordIsMatIcon | frontend/src/app/pages/home/home.component.ts:400-404 | a word without '/', not starting with '<' and missing a letter of "http" is taken for an icon name |
| SeoPreview.Truncate | frontend/src/app/components/seo-preview/seo-preview.component.ts:85-91 | a text within the limit is kept; a longer one is cut to exactly the limit, ending in "..." after its first `max - 3` characters |
| SeoPreview.DisplayTitle | frontend/src/app/components/seo-preview/seo-preview.component.ts:79-87 | the shown title is never empty and never longer than 60 characters |
| SeoPreview.DisplayDescription | frontend/src/app/components/seo-preview/seo-preview.component.ts:82-91 | the shown description is never empty and never longer than 160 characters |
| SeoPreview.RawScore | frontend/src/app/components/seo-preview/seo-preview.component.ts:94-204 | the sum of the points of the passing checks (definition); properties in SeoPreview.ScoreBounds and SeoPreview.FullScore |
| SeoPreview.Tips | frontend/src/app/components/seo-preview/seo-preview.component.ts:94-204 | the tips in check order (definition); SeoPreview.EmptyPage and SeoPreview.Evaluate state them |
| SeoPreview.Score | frontend/src/app/components/seo-preview/seo-preview.component.ts:206 | `Math.min(score, 100)` (definition); properties in SeoPreview.ScoreBounds and SeoPreview.FullScore |
| SeoPreview.ScoreClass | frontend/src/app/components/seo-preview/seo-preview.component.ts:208-216 | the four score classes by threshold (definition); SeoPreview.EmptyPage states the lowest |
| SeoPreview.ScoreBounds | frontend/src/app/components/seo-preview/seo-preview.component.ts:94-206 | the parts add up to at most 100, so `Math.min` never applies, and the score is a multiple of 5 in [0, 100] |
| SeoPreview.FullScore | frontend/src/app/components/seo-preview/seo-preview.component.ts:94-206 | the score is 100 exactly when every check passes, bonuses included |
| SeoPreview.EmptyPage | frontend/src/app/components/seo-preview/seo-preview.component.ts:94-216 | an empty page scores 0, is classed "poor" and gets the four missing-item tips |
| SeoPreview.Evaluate | frontend/src/app/components/seo-preview/seo-preview.component.ts:94-204 | the step-by-step checks accumulate exactly the score and tips of the per-part definitions |
| SeoPreview.Preview.constructor | frontend/src/app/components/seo-preview/seo-preview.component.ts:57-70 | empty inputs, no tips, score 0 |
| SeoPreview.Preview.OnChanges | frontend/src/app/components/seo-preview/seo-preview.component.ts:72-75 | the preview, the score, its class and the tips are recomputed from the new inputs alone |
| SeoPreview.Preview.UpdatePreview | frontend/src/app/components/seo-preview/seo-preview.component.ts:77-92 | the shown title and description follow the display rule; nothing else changes |
| SeoPreview.Preview.CalculateSeoScore | frontend/src/app/components/seo-preview/seo-preview.component.ts:94-216 | the score, its class and the tips depend only on the inputs, since earlier tips are discarded |
| FileValidator.ValidateImage | frontend/src/app/utils/file-validator.util.ts:12-38 | valid exactly for a supported image type within 5 MiB; otherwise the error of the first failed check, in the source's order |
| FileValidator.ValidateVideo | frontend/src/app/utils/file-validator.util.ts:43-70 | valid exactly for a supported video type within 50 MiB; otherwise the error of the first failed check |
| FileValidator.ValidateMedia | frontend/src/app/utils/file-validator.util.ts:75-86 | images and videos are checked by their own rules, and anything else is refused |
| FileValidator.MediaAccepted | frontend/src/app/utils/file-validator.util.ts:75-86 | a media file passes exactly when it is a supported image within 5 MiB or a supported video within 50 MiB |
| FileValidator.ImageEdges | frontend/src/app/utils/file-validator.util.ts:22-35 | GIF is refused with the format error; exactly 5 MiB passes, one byte more does not |
| FileValidator.AcceptedImagesAcceptedByServer | backend/handlers/handlers.go:985-992 | every image the browser accepts is accepted by the server's homepage-media check |
| FileValidator.OggVideoRefusedByServer | backend/handlers/handlers.go:994-1002 | an Ogg video passes the browser's check but is not in the server's list of video types |
| PostDialog.SchemeEnd | frontend/src/app/components/post-dialog/post-dialog.component.ts:600 | the `https?://` part of the pattern ends within the text |
| PostDialog.PathMatchAt | frontend/src/app/components/post-dialog/post-dialog.component.ts:600 | a match of `https?:\/\/[^\/]+(.*)$` at a position ends after it and within the text |
| PostDialog.FindPath | frontend/src/app/components/post-dialog/post-dialog.component.ts:600 | the leftmost match, if any, lies within the text |
| PostDialog.ConvertImageUrl | frontend/src/app/components/post-dialog/post-dialog.component.ts:570-608 | the dialog's `convertImageUrl` (definition); properties in PostDialog.AgreesWithAdmin, PostDialog.RelativePathKept, PostDialog.VpsUrlToPath and PostDialog.NotProxyBranch |
| PostDialog.AgreesWithAdmin | frontend/src/app/components/post-dialog/post-dialog.component.ts:570-608 | wherever the two extra branches do not apply, the dialog's `convertImageUrl` agrees with the admin page's |
| PostDialog.RelativePathKept | frontend/src/app/components/post-dialog/post-dialog.component.ts:593-595 | paths under /data/, /uploads/ and /api/ come back unchanged |
| PostDialog.VpsUrlToPath | frontend/src/app/components/post-dialog/post-dialog.component.ts:597-605 | an absolute upload or API URL that is not on port 8080 is cut down to its path |
| PostDialog.NotProxyBranch | frontend/src/app/components/post-dialog/post-dialog.component.ts:574-590 | without ":8080/", none of the proxy rewrites applies |
| PostDialog.PathMatchesAtStart | frontend/src/app/components/post-dialog/post-dialog.component.ts:600-602 | on `scheme://host/path`, the pattern matches at the start and its group is the path |
| PostDialog.SchemeAtStart | frontend/src/app/components/post-dialog/post-dialog.component.ts:600 | the scheme part matches "https://" or "http://" at the start |
| PostDialog.FirstSlashAfterHost | frontend/src/app/components/post-dialog/post-dialog.component.ts:600 | the host run `[^\/]+` ends at the slash that opens the path |
| PostDialog.PathAfterHost | frontend/src/app/components/post-dialog/post-dialog.component.ts:600 | the group `(.*)$` after the host is the path, so it meets no line break |
| PostDialog.PathMatchOf | frontend/src/app/components/post-dialog/post-dialog.component.ts:600-602 | the pattern matches at the start once the scheme, a non-empty host run and a line-break-free rest are there |
| PostDialog.ConvertContentImageUrls | frontend/src/app/components/post-dialog/post-dialog.component.ts:611-625 | content without an `<img` tag, in any letter case, is unchanged |
| PostDialog.NoImgCase | frontend/src/app/components/post-dialog/post-dialog.component.ts:616-622 | the rewrite touches nothing when there is no `<img` tag |
| PostDialog.MetaTitleLength | frontend/src/app/components/post-dialog/post-dialog.component.ts:628-632 | the count is the meta title's length, or the title's when there is no meta title |
| PostDialog.MetaTitleLengthIsPreviewLength | frontend/src/app/components/post-dialog/post-dialog.component.ts:628-632 | up to 60, the count equals the length of the title the search preview shows |
| PostDialog.ImageCheck | frontend/src/app/components/post-dialog/post-dialog.component.ts:531-542 | the picker lets a file through exactly when it is within 5 MiB and an image; the size error comes first |
| PostDialog.PickerWeakerThanValidator | frontend/src/app/components/post-dialog/post-dialog.component.ts:531-542 | every image the shared validator accepts passes the picker, and a GIF passes the picker though the validator refuses it |
| PostDialog.Dialog.constructor | frontend/src/app/components/post-dialog/post-dialog.component.ts:527-545 | no image selected, no error, no upload under way |
| PostDialog.Dialog.OnImageSelect | frontend/src/app/components/post-dialog/post-dialog.component.ts:527-547 | no file does nothing; a refused file sets the picker's error; an accepted one clears the error and starts exactly one upload |
| PostDialog.Dialog.OnUploadResult | frontend/src/app/components/post-dialog/post-dialog.component.ts:547-559 | a returned URL becomes the selected image and the form's image; a failure sets the upload error; uploading ends either way |
| PostDialog.Dialog.RemoveImage | frontend/src/app/components/post-dialog/post-dialog.component.ts:562-567 | clears the selection, the form's image and the error |
| PostDialog.Dialog.GenerateSlug | frontend/src/app/components/post-dialog/post-dialog.component.ts:639-650 | without a title nothing changes; otherwise the slug becomes the title slug, which is in `[a-z0-9-]` with no double hyphen |
| ArticleEditor.RouteNumber | frontend/src/app/pages/article-editor/article-editor.component.ts:119 | only non-empty digit strings are numbers |
| ArticleEditor.RouteNumberOfId | frontend/src/app/pages/article-editor/article-editor.component.ts:119 | a route built from an id gives that id back |
| ArticleEditor.Editor.constructor | frontend/src/app/pages/article-editor/article-editor.component.ts:96-109 | an empty form in create mode, with nothing loaded or sent |
| ArticleEditor.Editor.OnRouteParams | frontend/src/app/pages/article-editor/article-editor.component.ts:116-122 | a non-empty id switches to edit mode and loads that article; without one, nothing changes |
| ArticleEditor.Editor.OnSubmit | frontend/src/app/pages/article-editor/article-editor.component.ts:161-185 | a valid form is sent once: as an update in edit mode, as a create otherwise; an invalid form is not sent |
| ArticleEditor.Editor.GenerateSlug | frontend/src/app/pages/article-editor/article-editor.component.ts:191-202 | the title slug as in the post dialog; a valid form stays valid when lower-casing does not lengthen the title |
| ArticleEditor.Editor.MetaTitleLength | frontend/src/app/pages/article-editor/article-editor.component.ts:209-213 | the same count as the post dialog's; up to 60 it equals the shown title's length |
| ArticleEditor.SlugFitsLimit | frontend/src/app/pages/article-editor/article-editor.component.ts:108 | a title within 500 characters gives a slug within the slug field's 500 |
| ArticleEditor.TitleSlugShorter | frontend/src/app/pages/article-editor/article-editor.component.ts:191-202 | the slug is never longer than the lower-cased title |
| IconSelector.InitialSelection | frontend/src/app/components/icon-selector/icon-selector.component.ts:256-274 | a current icon is selected exactly when there is one: as SVG when it is a URL or path, and as a Material icon of that name otherwise |
| IconSelector.Dialog.constructor | frontend/src/app/components/icon-selector/icon-selector.component.ts:235-254 | the full icon list is shown, and nothing is selected |
| IconSelector.Dialog.OnInit | frontend/src/app/components/icon-selector/icon-selector.component.ts:256-274 | the initial selection is made, and the custom list starts empty |
| IconSelector.Dialog.FilterIcons | frontend/src/app/components/icon-selector/icon-selector.component.ts:280-288 | an empty term shows every icon; otherwise exactly the icons containing the term in any letter case, in list order |
| IconSelector.Dialog.SelectMaterialIcon | frontend/src/app/components/icon-selector/icon-selector.component.ts:290-296 | selects the named Material icon and changes nothing else |
| IconSelector.Dialog.SelectCustomIcon | frontend/src/app/components/icon-selector/icon-selector.component.ts:298-305 | selects the custom icon's URL and SVG and changes nothing else |
| IconSelector.Dialog.OnSvgFileSelected | frontend/src/app/components/icon-selector/icon-selector.component.ts:307-319 | only an `image/svg+xml` file is taken, and its text becomes the preview |
| IconSelector.Dialog.UploadSvg | frontend/src/app/components/icon-selector/icon-selector.component.ts:321-359 | without a file and a preview nothing happens; an upload selects the returned URL and appends it to the custom icons; on failure the preview is selected as a base64 data URI |
| IconSelector.IsMatIconUrl | frontend/src/app/components/icon-selector/icon-selector.component.ts:460-462 | the selector's icon-name test (definition); compared with the home page's by IconSelector.IsMatIconUrlIsHomeTest |
| IconSelector.IsMatIconUrlIsHomeTest | frontend/src/app/components/icon-selector/icon-selector.component.ts:460-462 | the field's test is the home page's, except that the field takes the empty value for an icon name |
| IconSelector.UrlIsNotMatIcon | frontend/src/app/components/icon-selector/icon-selector.component.ts:460-462 | a URL or a path is never shown as a Material icon |
| IconSelector.MaterialSelectionNotShown | frontend/src/app/components/icon-selector/icon-selector.component.ts:256-274 | `InitialSelection` takes "icons/star.svg" for a Material icon, yet the field does not show it as one; as the dialog is opened (no `currentIcon` is passed in) this is not reached |
| IconSelector.SvgContent | frontend/src/app/components/icon-selector/icon-selector.component.ts:464-475 | a data URI is decoded after its comma; a URL has no inline content; anything else is inline SVG as it stands |
| IconSelector.IconLabel | frontend/src/app/components/icon-selector/icon-selector.component.ts:477-486 | an icon name labels itself, and a value that is neither a name nor a URL is "Custom SVG" |
| IconSelector.UrlLabel | frontend/src/app/components/icon-selector/icon-selector.component.ts:477-486 | an uploaded `dir/name.svg` is labelled `name` |
| IconSelector.LocalPreviewRoundTrip | frontend/src/app/components/icon-selector/icon-selector.component.ts:349-356 | the data URI stored on upload failure decodes back to the preview, given that the decoder inverts the encoder and the base64 text has no comma |
| IconSelector.SplitLast | frontend/src/app/components/icon-selector/icon-selector.component.ts:477-486 | `pop()` of a split gives the text after the last separator |
| IconSelector.StripSvg | frontend/src/app/components/icon-selector/icon-selector.component.ts:334 | removing ".svg" from `name.svg` gives `name` |
| UrlConverter.FirstOf | frontend/src/app/utils/url-converter.util.ts:30-45 | the first character of a class at or after a position, with none before it |
| UrlConverter.BackendEndSound | frontend/src/app/utils/url-converter.util.ts:30-45 | every end the scanner reports is a match of `scheme[^/]+:8080/` |
| UrlConverter.BackendEndComplete | frontend/src/app/utils/url-converter.util.ts:30-45 | every match of the pattern is found by the scanner |
| UrlConverter.FindBackend | frontend/src/app/utils/url-converter.util.ts:30-45 | the leftmost match, with no match before it |
| UrlConverter.ReplaceBackend | frontend/src/app/utils/url-converter.util.ts:30-45 | `replace(/scheme[^/]+:8080\//, '/')` (definition); properties in UrlConverter.FindBackend, UrlConverter.ReplaceBackendOfUrl and UrlConverter.ReplaceBackendNeedsPort |
| UrlConverter.ReplaceBackendOfUrl | frontend/src/app/utils/url-converter.util.ts:30-45 | `scheme://host:8080/rest` becomes `/rest` |
| UrlConverter.ReplaceBackendNeedsPort | frontend/src/app/utils/url-converter.util.ts:30-45 | text without ":8080/" is not changed |
| UrlConverter.ConvertImageUrl | frontend/src/app/utils/url-converter.util.ts:13-52 | `convertImageUrl` with its fallback option (definition); its outcomes are stated by UrlConverter.ConvertImageUrlCases |
| UrlConverter.ConvertImageUrlCases | frontend/src/app/utils/url-converter.util.ts:13-52 | the outcomes: empty stays empty; the localhost prefix becomes "/"; the first backend match, tried first over https and then over http, becomes "/"; otherwise the fallback, which defaults to the URL |
| UrlConverter.ConvertImageUrls | frontend/src/app/utils/url-converter.util.ts:58-60 | element-wise conversion, length preserved |
| UrlConverter.LastSrc | frontend/src/app/utils/url-converter.util.ts:75-77 | greedy `[^>]+`: the last `src=` before the tag's first '>' that completes the match |
| UrlConverter.FindImg | frontend/src/app/utils/url-converter.util.ts:75-77 | the leftmost `<img` match, with no match before it |
| UrlConverter.RewriteImgSrc | frontend/src/app/utils/url-converter.util.ts:75-81 | the global, case-insensitive `<img … src=` replace with a conversion of the URL group (definition); properties in UrlConverter.RewriteStep, UrlConverter.RewriteOnlySrc and UrlConverter.NoImgUnchanged |
| UrlConverter.RewriteStep | frontend/src/app/utils/url-converter.util.ts:75-81 | one replacement of the global rewrite: the text up to the quote after `src=`, the converted URL, the rest of the tag, then the rewrite of what follows |
| UrlConverter.ImgMatchShape | frontend/src/app/utils/url-converter.util.ts:75-77 | a match lies inside the content, its URL group is non-empty and quote-free, and it ends at '>' |
| UrlConverter.ConvertContentImageUrls | frontend/src/app/utils/url-converter.util.ts:65-87 | `convertContentImageUrls`: empty content is returned as it is, otherwise the rewrite with `convertImageUrl` (definition); properties in UrlConverter.RewriteStep and UrlConverter.NoImgUnchanged |
| UrlConverter.RewriteOnlySrc | frontend/src/app/utils/url-converter.util.ts:65-87 | only URL groups change: with the identity conversion the content comes back unchanged |
| UrlConverter.NoImgUnchanged | frontend/src/app/utils/url-converter.util.ts:65-87 | content without `<img`, in any letter case, is left as it is |
| ArticleList.TrimEach | frontend/src/app/pages/article-list/article-list.component.ts:131 | `map(tag => tag.trim())`: each piece trimmed, in order |
| ArticleList.TrimmedPieceClean | frontend/src/app/pages/article-list/article-list.component.ts:131 | a non-blank piece trims to a clean tag |
| ArticleList.GetTags | frontend/src/app/pages/article-list/article-list.component.ts:130-132 | `getTags`: split on commas, trim, drop empty pieces (definition); properties in ArticleList.GetTagsClean, ArticleList.GetTagsComplete and ArticleList.TagsRoundTrip |
| ArticleList.GetTagsClean | frontend/src/app/pages/article-list/article-list.component.ts:130-132 | every tag shown is non-empty, comma-free and not padded with white space |
| ArticleList.GetTagsComplete | frontend/src/app/pages/article-list/article-list.component.ts:130-132 | every piece of the text that is not blank is shown, trimmed |
| ArticleList.TrimmedPiecesClean | frontend/src/app/pages/article-list/article-list.component.ts:131-132 | trimmed comma-free pieces that pass the non-empty filter are clean tags |
| ArticleList.TrimmedPieceKept | frontend/src/app/pages/article-list/article-list.component.ts:131-132 | a piece whose trim is not empty is kept by the filter |
| ArticleList.GetTagsOf | frontend/src/app/pages/article-list/article-list.component.ts:130-132 | a non-empty tag text is split, trimmed and filtered |
| ArticleList.TrimEachClean | frontend/src/app/pages/article-list/article-list.component.ts:131 | clean tags survive trimming and filtering unchanged |
| ArticleList.TagsRoundTrip | frontend/src/app/pages/article-list/article-list.component.ts:130-132 | clean tags joined with commas are read back as the same list |
| ArticleList.JoinNonEmpty | frontend/src/app/pages/article-list/article-list.component.ts:131 | a join starting with a non-empty piece is non-empty, so it is not the falsy tag text |
| ArticleList.FindClose | frontend/src/app/pages/article-list/article-list.component.ts:137 | the first '>' at or after a position, with none before it |
| ArticleList.StripTags | frontend/src/app/pages/article-list/article-list.component.ts:137 | `replace(/<[^>]*>/g, '')` never lengthens the text |
| ArticleList.StripTagsKeepsOut | frontend/src/app/pages/article-list/article-list.component.ts:137 | stripping adds no character |
| ArticleList.StripTagsNoTag | frontend/src/app/pages/article-list/article-list.component.ts:137 | no '<' is followed later by a '>' in the stripped text |
| ArticleList.StripTagsOfPlain | frontend/src/app/pages/article-list/article-list.component.ts:137 | text without a tag is kept as it is |
| ArticleList.StripTagsIdempotent | frontend/src/app/pages/article-list/article-list.component.ts:137 | stripping twice strips nothing more |
| ArticleList.Prefix | frontend/src/app/pages/article-list/article-list.component.ts:139 | `substring(0, n)` is the first `n` characters, with `n` clamped to the text |
| ArticleList.TruncateContent | frontend/src/app/pages/article-list/article-list.component.ts:134-141 | empty content gives ''; stripped text within the limit is shown whole; longer text is cut to the limit and followed by "..." |
| ArticleList.NoTagPrefix | frontend/src/app/pages/article-list/article-list.component.ts:134-141 | cutting a tag-free text keeps it tag-free |
| ArticleList.PreviewPlain | frontend/src/app/pages/article-list/article-list.component.ts:134-141 | the preview is at most the content plus "...", and holds no tag: an uncut preview none at all, a cut one none before its "..." |
| ArticleList.QueryFor | frontend/src/app/pages/article-list/article-list.component.ts:78-84 | the tag is sent exactly when the search text is non-empty; the limit is the page size and the offset is page times size |
| ArticleList.PagesTile | frontend/src/app/pages/article-list/article-list.component.ts:78-84 | consecutive pages are adjacent, and different pages never overlap |
| ArticleList.Page.constructor | frontend/src/app/pages/article-list/article-list.component.ts:40-52 | the field defaults: loading, published only, page 0 of size 6 |
| ArticleList.Page.LoadArticles | frontend/src/app/pages/article-list/article-list.component.ts:75-86 | marks loading and sends the current query |
| ArticleList.Page.OnArticles | frontend/src/app/pages/article-list/article-list.component.ts:86-95 | success replaces the articles, failure keeps them, and loading ends either way |
| ArticleList.Page.OnFilterChange | frontend/src/app/pages/article-list/article-list.component.ts:98-101 | back to page 0, and the query sent starts at offset 0 |
| ArticleList.Page.OnPageChange | frontend/src/app/pages/article-list/article-list.component.ts:103-107 | adopts the paginator's page and size and requests that page |
| Sitemap.CategoryEntries | frontend/src/app/components/sitemap/sitemap.component.ts:47-55 | one entry per category |
| Sitemap.CategoryEntryAt | frontend/src/app/components/sitemap/sitemap.component.ts:47-55 | category `i` gives entry `i` |
| Sitemap.PostEntries | frontend/src/app/components/sitemap/sitemap.component.ts:57-65 | one entry per post given |
| Sitemap.PostEntryAt | frontend/src/app/components/sitemap/sitemap.component.ts:57-65 | post `i` gives entry `i` |
| Sitemap.HomeFirst | frontend/src/app/components/sitemap/sitemap.component.ts:39-45 | the home page is the first of 1 + categories + published posts entries |
| Sitemap.CategoryAt | frontend/src/app/components/sitemap/sitemap.component.ts:47-55 | category `i` is entry `1 + i` |
| Sitemap.PostAt | frontend/src/app/components/sitemap/sitemap.component.ts:57-65 | published post `k` follows all categories |
| Sitemap.SitemapUrls | frontend/src/app/components/sitemap/sitemap.component.ts:30-72 | the home entry, the category entries and the published-post entries (definition); properties in Sitemap.HomeFirst, Sitemap.SitemapUrlsShape and Sitemap.GeneratedSlugsNeedNoEscaping, and Sitemap.BuildUrls computes it |
| Sitemap.SitemapUrlsShape | frontend/src/app/components/sitemap/sitemap.component.ts:30-72 | one entry for the home page, one per category and one per published post, with priorities 1.0, 0.8 and 0.6 and the category URLs built from their slugs |
| Sitemap.PostEntriesArePublished | frontend/src/app/components/sitemap/sitemap.component.ts:57-65 | every post entry names a published post |
| Sitemap.PublishedPostsListed | frontend/src/app/components/sitemap/sitemap.component.ts:57-65 | every published post has an entry |
| Sitemap.BuildUrls | frontend/src/app/components/sitemap/sitemap.component.ts:36-65 | the push loops build exactly the specified list |
| Sitemap.CategoryEntriesSnoc | frontend/src/app/components/sitemap/sitemap.component.ts:47-55 | one more category appends its entry |
| Sitemap.PostEntriesSnoc | frontend/src/app/components/sitemap/sitemap.component.ts:57-65 | one more post appends its entry |
| Sitemap.BlocksConcat | frontend/src/app/components/sitemap/sitemap.component.ts:78-87 | the document holds one `<url>` block per entry, in list order |
| Sitemap.Xml | frontend/src/app/components/sitemap/sitemap.component.ts:74-91 | the document: the declaration, the `<urlset>` frame and one block per entry (definition); properties in Sitemap.XmlFrame and Sitemap.BlocksConcat, and Sitemap.GenerateXml computes it |
| Sitemap.XmlFrame | frontend/src/app/components/sitemap/sitemap.component.ts:74-91 | the document opens with the XML declaration and the 0.9 `<urlset>`, and closes with `</urlset>` |
| Sitemap.GenerateXml | frontend/src/app/components/sitemap/sitemap.component.ts:74-91 | the string-appending loop yields exactly the specified document |
| Sitemap.BlocksSnoc | frontend/src/app/components/sitemap/sitemap.component.ts:78-87 | one more entry appends its block |
| Sitemap.AppendUrl | frontend/src/app/components/sitemap/sitemap.component.ts:79-86 | one entry appends its block: the `<lastmod>` line only when there is a date |
| Sitemap.Page.constructor | frontend/src/app/components/sitemap/sitemap.component.ts:30-72 | the page starts with an empty document |
| Sitemap.Page.GenerateSitemap | frontend/src/app/components/sitemap/sitemap.component.ts:30-72 | the document shown is the XML of the entry list |
| Sitemap.NoXmlSpecialConcat | frontend/src/app/components/sitemap/sitemap.component.ts:50 | text free of XML special characters stays free when concatenated |
| Sitemap.SlugTextPlain | frontend/src/app/components/sitemap/sitemap.component.ts:50 | a `[a-z0-9-]` slug needs no escaping |
| Sitemap.DecimalPlain | frontend/src/app/components/sitemap/sitemap.component.ts:60 | a printed id needs no escaping |
| Sitemap.CategoryLocPlain | frontend/src/app/components/sitemap/sitemap.component.ts:50 | a category URL built from a generated slug needs no escaping |
| Sitemap.FixedPartsPlain | frontend/src/app/components/sitemap/sitemap.component.ts:37-60 | the base URL and the path words hold no character that needs escaping |
| Sitemap.PostLocPlain | frontend/src/app/components/sitemap/sitemap.component.ts:60 | a post URL needs no escaping |
| Sitemap.GeneratedSlugsNeedNoEscaping | frontend/src/app/components/sitemap/sitemap.component.ts:30-91 | when every category slug is in `[a-z0-9-]`, every `<loc>` is valid XML without escaping |
| Sitemap.LocPlainAt | frontend/src/app/components/sitemap/sitemap.component.ts:30-65 | the same, entry by entry |
| Sitemap.CategoryLocPlainAt | frontend/src/app/components/sitemap/sitemap.component.ts:47-55 | a category entry with a generated slug needs no escaping |
| Sitemap.PostLocPlainAt | frontend/src/app/components/sitemap/sitemap.component.ts:57-65 | a post entry needs no escaping |
| Sitemap.AmpersandSlugUnescaped | frontend/src/app/components/sitemap/sitemap.component.ts:50 | a slug holding '&' reaches `<loc>` unescaped |
| Logger.Rank | frontend/src/app/services/logger.service.ts:3-8 | the enum's values run from 0 to 3, and 0 is ERROR alone |
| Logger.EnabledMonotone | frontend/src/app/services/logger.service.ts:27-29 | if a level is written, every more severe level is too, and errors always are |
| Logger.InitialLevel | frontend/src/app/services/logger.service.ts:14-25 | the threshold is INFO exactly on a host whose name contains "localhost", and WARN exactly elsewhere |
| Logger.WhatIsWritten | frontend/src/app/services/logger.service.ts:14-29 | debug lines are never written; info lines only on localhost; warnings and errors always |
| Logger.FormatMessage | frontend/src/app/services/logger.service.ts:31-35 | the line starts with the timestamp, a space and the level, and ends with ": " and the message |
| Logger.FormatMessageLength | frontend/src/app/services/logger.service.ts:31-35 | the context adds its text and three characters, and only when it is not empty |
| Logger.MediaDetails | frontend/src/app/services/logger.service.ts:80-83 | details are added exactly when both the media type and the file name are non-empty |
| Logger.Service.constructor | frontend/src/app/services/logger.service.ts:14-25 | the threshold follows the host name, and nothing is written yet |
| Logger.Service.Log | frontend/src/app/services/logger.service.ts:27-35 | appends the formatted line exactly when the level passes the threshold, and nothing otherwise |
| Logger.Service.Error | frontend/src/app/services/logger.service.ts:37-42 | an error line is always appended |
| Logger.Service.Warn | frontend/src/app/services/logger.service.ts:44-49 | a warning is appended under every threshold except ERROR, which the constructor never picks |
| Logger.Service.Info | frontend/src/app/services/logger.service.ts:51-56 | an info line is appended when the threshold lets it through |
| Logger.Service.Debug | frontend/src/app/services/logger.service.ts:58-63 | nothing is appended unless the threshold is DEBUG, which the constructor never picks |
| Logger.Service.LogCategoryOperation | frontend/src/app/services/logger.service.ts:66-71 | an info line, then a debug line for the data only under the DEBUG threshold; below it, only the info line |
| Logger.Service.LogPostOperation | frontend/src/app/services/logger.service.ts:73-78 | the same for posts |
| Logger.Service.LogMediaOperation | frontend/src/app/services/logger.service.ts:80-83 | one info line carrying the media details |
| Config.DropCR | backend/config/config.go:18-20 | the scanner removes one trailing carriage return and nothing else |
| Config.Pieces | backend/config/config.go:18-20 | no scanned piece contains a newline |
| Config.ScanLines | backend/config/config.go:18-20 | one line per piece, each without its carriage return |
| Config.PiecesOfJoin | backend/config/config.go:18-20 | newline-terminated lines split back into the same pieces |
| Config.ScanLinesOfJoin | backend/config/config.go:18-20 | lines written one per row are scanned back as the same lines |
| Config.FindCharIff | backend/config/config.go:25 | the separator is found exactly when the line contains it |
| Config.FoundFirst | backend/config/config.go:25 | no '=' comes before the one found |
| Config.ParseLine | backend/config/config.go:21-31 | a line yields no entry exactly when it is blank, starts with '#' or has no '='; a key never contains '=' |
| Config.ParseLineSteps | backend/config/config.go:21-31 | the three outcomes in the loop's order: skip, no separator, or the trimmed halves around the first '=' |
| Config.ParseLineOf | backend/config/config.go:25-31 | `a=b` with no '=' in `a` gives the trimmed `a` and the trimmed `b`, even when `b` contains '=' |
| Config.Setenv | backend/config/config.go:35 | an accepted call sets exactly the one variable; a refused call changes nothing |
| Config.Fold | backend/config/config.go:19-37 | the loop over the lines as a left fold (definition); properties in Config.FoldConcat, Config.FoldStep and Config.FoldSplitAt |
| Config.FoldConcat | backend/config/config.go:19-37 | applying lines in two batches equals applying them all |
| Config.FoldStep | backend/config/config.go:19-37 | the fold over one more line applies that line to the fold over the lines before it |
| Config.ApplyLine | backend/config/config.go:21-36 | one line of `.env`: parse it and set its variable only while that reads empty (definition); properties in Config.NoEntryStep, Config.EntryStep, Config.KeepStep and Config.EmptyStep |
| Config.NoEntryStep | backend/config/config.go:21-31 | a blank line, a comment or a line without '=' leaves the environment as it was |
| Config.EntryStep | backend/config/config.go:33-36 | an entry sets its variable when the variable reads empty, and changes nothing otherwise |
| Config.FoldSplitAt | backend/config/config.go:19-37 | the result around one line: the lines before it, the line, the lines after |
| Config.FoldKeeps | backend/config/config.go:19-37 | a property of the environment that each step keeps, for the lines in question, holds after all of them |
| Config.KeepStep | backend/config/config.go:33-36 | one line never changes a variable that reads non-empty |
| Config.EmptyStep | backend/config/config.go:33-36 | a line that does not set a variable to a non-empty value leaves it reading empty |
| Config.SetsStep | backend/config/config.go:33-36 | a line that sets a variable reading empty gives it the line's value |
| Config.UnnamedStep | backend/config/config.go:33-36 | a line that yields no entry, or names another key, leaves the variable as it was |
| Config.KeepsSetVariables | backend/config/config.go:33-36 | a variable already set to a non-empty value is never overwritten by the file |
| Config.StaysEmpty | backend/config/config.go:19-37 | a variable no line sets keeps reading empty |
| Config.UnnamedUnchanged | backend/config/config.go:19-37 | a variable no line names is left exactly as it was |
| Config.FirstEntryWins | backend/config/config.go:19-37 | for a variable unset beforehand, the first line that sets it to a non-empty value decides its value; later lines do not override it |
| Config.Process.constructor | backend/config/config.go:10 | the process starts with the given environment |
| Config.Process.LoadEnv | backend/config/config.go:10-40 | a missing file changes nothing; otherwise the environment is the result of applying each scanned line in order |
| Config.Process.LoadLine | backend/config/config.go:20-36 | one loop iteration applies one line |
| Server.AllowOrigin | backend/main.go:33-45 | the CORS `AllowOriginFunc` as written (definition); properties in Server.PublicAddressAllowed, Server.LocalhostOrigins and Server.LookalikeHostAllowed |
| Server.PublicAddressAllowed | backend/main.go:39-42 | the public address is allowed over http and https, with or without a port |
| Server.LocalhostOrigins | backend/main.go:35-37 | among localhost origins, only ports 4200 and 4201 over http pass |
| Server.LookalikeHostAllowed | backend/main.go:40-42 | the prefix test also allows `http://157.66.26.139.example.com` and `https://157.66.26.1390` |
| Server.IntendedAllowsPorts | backend/main.go:39-42 | the corrected test still allows the public address with any port or none |
| Server.IntendedRefusesLookalikes | backend/main.go:39-42 | under the corrected test, only the end of the origin or a ':' may follow the address |
| Server.IntendedRefusesExample | backend/main.go:39-42 | the corrected test refuses `http://157.66.26.139.example.com` |
| Server.IntendedNarrower | backend/main.go:33-45 | the corrected test allows nothing the written one refuses |
| Server.ListenAddress | backend/main.go:120-125 | the server listens on every interface, on `SERVER_PORT` when it is set and non-empty, and on 8080 otherwise |
| Server.EnvironmentPortWins | backend/main.go:120-125 | a port already set in the environment wins over the `.env` file |
| Server.FilePortUsed | backend/main.go:120-125 | otherwise the first `.env` line that sets a non-empty `SERVER_PORT` decides the port |

## Left out

Data and normalisation
- Models.NormalizeCategory: `is_active` is `Option<bool>`, so a JSON `null` cannot be told apart from a missing field; the code keeps `null` (it only tests `!== undefined`), while the model reads both as true.
- The HTTP calls of the data service, the cache-busting timestamp and RxJS error handling are not modelled; the services' results are the values the model's functions return.

Category pages
- Navbar.CategoryIcon: `getCategoryIcon` looks icons up in an object literal, so a prototype key such as `constructor` would also hit; the model's lookup table has only its own keys.
- The date sort inside the home page's `getCategoryPosts` (frontend/src/app/pages/home/home.component.ts:340) is not modelled.
- The carousel's autoplay timers and intervals are not modelled; only the index moves are.
- `loadHomepageMedia` does not reset the carousel index when new media arrive; the model keeps that and proves nothing about it.
- Navbar.Navbar.OnCategories: a failed request (`catchError`) is modelled as a missing list (`None`), which yields no menu entries.
- Admin: the Angular CDK's `moveItemInArray` is library code, so it is modelled from its documented behaviour.
- ArticleEditor: the reactive form's validators are written out as `FormValid`; `loadArticle`, `loadCategories` and `onCancel` only call services or navigate, and are left out.
- ArticleList: `formatDate`, `viewArticle`, `editArticle`, `createArticle` and `loadCategories` are formatting or navigation only, and are left out.

Strings, encoding and browser APIs
- JavaScript string lengths count UTF-16 code units, while a Dafny `char` is a Unicode scalar value; length limits are stated in `char`s.
- IconSelector.Dialog.constructor: `currentIcon` is a constructor argument here, but in the source it is an `@Input()` of the dialog (frontend/src/app/components/icon-selector/icon-selector.component.ts:227) that nothing sets: the dialog's constructor takes no data (250-254) and `openIconSelector` passes the icon only as `MatDialog` data (447-450), which the dialog never reads. The real dialog therefore always starts with `currentIcon` undefined, and `ngOnInit` never preselects; the model's OnInit, InitialSelection and MaterialSelectionNotShown describe the preselection as it would run if the value were delivered.
- IconSelector.Dialog.UploadSvg: `btoa` is a total `encode` here, but `btoa(this.svgPreview)` (icon-selector.component.ts:353) throws on a preview holding a character above U+00FF; the error callback then ends by that exception and the selection stays as it was, which the model does not capture.
- IconSelector.SvgContent: `atob` is a total `decode` here, but `atob` (icon-selector.component.ts:466-468) throws on the text "undefined" that a data URI without a comma gives, and on any piece that is not base64; those throws are not modelled.
- `toLowerCase`, `normalize('NFD')`, `btoa` and `atob` are function parameters of the members that use them. Where a lemma needs something of them, such as lower-case output, it is a precondition of that lemma.
- `FileReader` is asynchronous in the browser; the model passes the file's text in as a parameter of the method that receives it.
- ArticleEditor.RouteNumber: only decimal digits are read as a number. JavaScript's unary `+` also accepts white space, a sign, hexadecimal and exponent forms, and reads the empty text as 0; the links the application builds always carry decimal ids.

Sitemap
- Sitemap.Page.GenerateSitemap: the dates come from the parameters `day` and `today`; for a post with neither `updated_at` nor `created_at`, `new Date('')` is an invalid date whose `toISOString()` throws a `RangeError` (frontend/src/app/components/sitemap/sitemap.component.ts:61), and that throw is not modelled.

Logger
- Logger.Service.Error: the error object and the data objects passed beside the message go straight to the console and are not modelled.
- The ISO timestamp comes from the parameter `now`.

Config
- Config.Process.LoadEnv: `scanner.Err()` is not modelled, so a line longer than bufio's 64 KiB token limit is not an error in the model; the function always returns nil.
- Opening the file is modelled as optional content: `None` when it cannot be opened.
- `os.Setenv` errors are modelled by `SetenvAccepts`: a refused call changes nothing, as the loader ignores the error.

Server and handlers
- The router wiring, the static file routes and the health check in backend/main.go are not modelled.
- Handlers.CreateCategory and Handlers.UpdateCategory: database errors (the 500 responses) are not modelled; the INSERT is modelled as the row it returns, with the new id a parameter, and the UPDATE (an `Exec` that returns no row) as the merged row it stores.
- Handlers.UpdateCategory: the 200 body is the stored merged row, while the source answers with `existingCategory`, whose `display_order`, `created_at` and `updated_at` are never scanned (backend/handlers/handlers.go:249-258), so the real response carries display order 0 and zero timestamps in those fields.
- Handlers.CheckMediaReplacement: the file writing and deleting after the checks is not modelled.
- The other handlers in backend/handlers/handlers.go (posts, media uploads, settings) are not part of this model.

## Findings

| source | as written | input that shows it | evidently intended | confidence | as-written member | corrected member |
|---|---|---|---|---|---|---|
| frontend/src/app/services/data.service.ts:40-54 | the normalisation lists no SEO field, so `meta_title`, `meta_description`, `meta_keywords` and `og_image_url` are dropped from every fetched category | an API category whose `meta_title` is "Villa designs", edited in the category dialog without changes: the update sends an empty meta title | keep the SEO fields that the `Category` interface declares and the category dialog edits | not executed | Models.NormalizeCategoryAsWritten, Models.GetCategories, CategoryDialog.EditErasesSeo | Models.NormalizeCategory, Models.GetCategoriesIntended, CategoryDialog.EditKeepsSeo |
| backend/main.go:40-42 | the origin check is a prefix test on the public address | the origin `http://157.66.26.139.example.com` is allowed | the public address over http or https, with an optional port, and nothing longer | not executed | Server.LookalikeHostAllowed | Server.IntendedRefusesLookalikes, Server.IntendedRefusesExample, Server.IntendedAllowsPorts |
