# A verified model of the IDE-style portfolio

The site presents a portfolio as a code editor. Underneath the markup sit a few real pieces
of sequential logic, and this project models each of them in Dafny and proves what it
promises:

- the editor store (`EditorStore`, with the file tree in `EditorTree`): the ordered tab list
  with one active file, the side-bar panel that closes when its icon is clicked again, the
  visibility flags, the recursive file tree and the overlay of visitor-written files;
- the terminal (`Terminal`): the tokeniser and the command switch, the `print(...)`
  recogniser that "runs" Python files, the file guard of the JavaScript runner, the submit
  handler and the history recall;
- the file helpers (`Files`): extension extraction, the language and icon tables and the
  bundled-content lookup;
- the editor pane (`EditorView`): the text shown for the active file, the line-number
  gutter, the unsaved marker, the breadcrumbs and the one-element-per-line highlighter;
- the explorer side bar (`Sidebar`): *collapse all*, the tree rows and their click routing,
  the new-file and new-folder forms, the folder-upload name and the width clamp;
- the command palette (`CommandPalette`): the filter, the grouping loop and the selection
  cursor;
- the standalone portfolio page (`PortfolioPage`): the wrapping slideshow cursor and the
  skill-category filter;
- the offline assistant (`Gemini`): the keyword classifier and the empty-key guard;
- the appearance store (`ThemeStore`) and the embedded browser (`SimpleBrowser`).

`Text` holds the string functions the others share. These are JavaScript's `trim` with its
whitespace set, ASCII lower-casing, `includes` and `startsWith`, and `split` and `join` on
one character.

Stores and components that update fields in place are classes. Their methods have
`modifies` frames, narrowed to the fields they write, and state what each written field becomes. The tree rewrites, the table lookups and
the classifiers are functions. The two loops of the source are methods whose loop invariants
tie them to a specification function:
- the grouping `reduce` of the palette (`CommandPalette.GroupCommands`);
- the line loop of the Python runner (`Terminal.ExecutePython`).

Where the code does something other than its names or comments suggest, the model follows
the code:
- `collapseAll` leaves open every folder *named* `anubhav-portfolio`, at any depth, and still
  collapses what is inside it.
- `createFile` always sets the overlay entry to the empty text, even when the file exists.
- `closeFile` removes every tab with the name.
- The terminal lower-cases the whole line, file names included, and splits it at every
  single space.
  `Terminal.ProcessCommand` is `Terminal.Respond` applied to these tokens. Most command lemmas
  are stated over any token list, and the lemmas about whole lines tie the two together.
- A JavaScript file that throws shows only the error line; what it logged before is lost.
- Typing `clear` does not empty the log (see Findings).

## Model

| member | source | states |
|---|---|---|
| EditorTree.ToggleNode | src/store/editor.ts:206-220 | a folder whose path is the target has its open flag flipped; any other node keeps every field but its children |
| EditorTree.ToggleForest | src/store/editor.ts:206-220 | the forest keeps its length, and every node keeps every field but its open flag and children |
| EditorTree.ToggleTwice | src/store/editor.ts:206-220 | on a well-formed tree (every folder has an open flag), toggling the same path twice restores the tree |
| EditorTree.ToggleTwiceNeedsFlag | src/store/editor.ts:209-210 | a folder without an open flag comes back flagged, so the involution needs the flag |
| EditorTree.ToggleMissing | src/store/editor.ts:206-220 | toggling a path no folder has changes nothing |
| EditorTree.ToggleKeepsShape | src/store/editor.ts:206-220 | toggling keeps every name, path, kind and child order |
| EditorTree.ToggleKeepsOk | src/store/editor.ts:206-220 | toggling keeps the tree well-formed |
| EditorTree.NewFileNode | src/store/editor.ts:234-239 | the new file node is well-formed, a file and carries the given name |
| EditorTree.NewFolderNode | src/store/editor.ts:272-278 | the new folder node is a well-formed, closed folder with the given name |
| EditorTree.AddNode | src/store/editor.ts:231-250 | a matching folder gets the child appended and is forced open; other nodes keep every field but their children |
| EditorTree.AddToForest | src/store/editor.ts:231-250 | the forest keeps its length, and every node keeps every field but its open flag and children |
| EditorTree.CreatedId | src/store/editor.ts:235 | the id starts with a digit of the timestamp and ends with `-` and the name |
| EditorTree.AddUnderParent | src/store/editor.ts:231-250 | when the path names a folder of the forest, the added node is a child of a folder with that path afterwards |
| EditorTree.FolderInTreeHasPath | src/store/editor.ts:231-250 | every folder anywhere in the forest has its path among the forest's folder paths |
| EditorTree.AddMissing | src/store/editor.ts:231-250 | adding under a path that no folder has leaves the tree unchanged |
| EditorTree.AddAppears | src/store/editor.ts:231-250 | adding under an existing folder path puts the new node in the tree |
| EditorTree.AddKeepsOk | src/store/editor.ts:231-250 | adding a well-formed node keeps the tree well-formed |
| EditorTree.InitialFileTreeOk | src/store/editor.ts:51-123 | the initial tree is well-formed |
| EditorStore.Names | src/store/editor.ts:3-9 | the tab names, one per tab, in order |
| EditorStore.NewTab | src/store/editor.ts:151-158 | a new tab has the name, path `/`+name, is active and clean; its id is the name with each `.` turned into `-` and every other character kept, position by position |
| EditorStore.ActivateOnly | src/store/editor.ts:145-147 | same tabs in the same order; a tab is active exactly when it carries the name |
| EditorStore.OpenTabs | src/store/editor.ts:140-164 | the name gets a tab; an existing name keeps the tab list, a new one appends exactly its new tab; only tabs with the name are active |
| EditorStore.RemoveNamed | src/store/editor.ts:168 | keeps exactly the tabs with another name |
| EditorStore.RemoveNamedKeepsOrder | src/store/editor.ts:168 | the kept tabs are a subsequence of the old ones: `filter` keeps their order |
| EditorStore.RemoveNamedConcat | src/store/editor.ts:168 | filtering a concatenation is the concatenation of the filtered parts |
| EditorStore.RemoveNamedLast | src/store/editor.ts:168 | the last kept tab is the last old tab with another name, all later ones carrying the name |
| EditorStore.CloseActivatesLastOther | src/store/editor.ts:166-181 | closing the active file, with tabs left, activates the last old tab of another name |
| EditorStore.CloseTabs | src/store/editor.ts:166-181 | no tab keeps the name; with none left the active file is null; closing the active file activates the last tab left; otherwise the flags and the active file stay |
| EditorStore.MarkDirty | src/store/editor.ts:259-266 | same tabs; exactly the tabs with the name become dirty, nothing else changes |
| EditorStore.SelectPanel | src/store/editor.ts:191-198 | clicking the shown panel while open closes the side bar; otherwise it opens with that panel |
| EditorStore.NewNameKeepsDistinct | src/store/editor.ts:149-163 | appending a tab for a new name keeps the names distinct |
| EditorStore.OpenKeepsOk | src/store/editor.ts:140-164 | opening keeps the tab invariant (distinct names, active flag exactly on the active file) |
| EditorStore.OpenIdempotent | src/store/editor.ts:140-164 | opening the same file twice is opening it once |
| EditorStore.RemoveNamedDistinct | src/store/editor.ts:168 | removing tabs keeps the names distinct |
| EditorStore.RemoveMissing | src/store/editor.ts:168 | removing a name no tab has changes nothing |
| EditorStore.RemoveOneOfDistinct | src/store/editor.ts:168 | with distinct names, closing an open file removes exactly one tab |
| EditorStore.CloseKeepsOk | src/store/editor.ts:166-181 | closing keeps the tab invariant |
| EditorStore.CloseMissing | src/store/editor.ts:178-179 | closing a file without a tab, while another file is active, changes nothing |
| EditorStore.CloseActiveWithoutTab | src/store/editor.ts:168-179 | closing an active file that has no tab still moves the active file to the last tab left |
| EditorStore.SetActiveKeepsOk | src/store/editor.ts:183-189 | making an open file active keeps the tab invariant |
| EditorStore.SetActiveWithoutTab | src/store/editor.ts:183-189 | making a name without a tab active leaves no tab active while the active file is set |
| EditorStore.MarkDirtyKeepsOk | src/store/editor.ts:259-266 | marking tabs dirty keeps the tab invariant |
| EditorStore.SelectPanelAgain | src/store/editor.ts:191-198 | clicking the same panel twice from an open side bar closes it and then reopens it on that panel |
| EditorStore.EditorState.constructor | src/store/editor.ts:125-138 | the initial state: the README tab, the explorer, both panes open, terminal height 200, the initial tree, no overlay |
| EditorStore.EditorState.OpenFile | src/store/editor.ts:140-164 | tabs become `OpenTabs` of the old tabs and the file is active; no other field changes |
| EditorStore.EditorState.CloseFile | src/store/editor.ts:166-181 | tabs and active file become `CloseTabs` of the old ones; no other field changes |
| EditorStore.EditorState.SetActiveFile | src/store/editor.ts:183-189 | tabs become `ActivateOnly` and the name is active even without a tab; no other field changes |
| EditorStore.EditorState.SetSidebarPanel | src/store/editor.ts:191-198 | panel and side-bar flag become `SelectPanel` of the old ones |
| EditorStore.EditorState.ToggleSidebar | src/store/editor.ts:200 | flips only the side-bar flag |
| EditorStore.EditorState.ToggleTerminal | src/store/editor.ts:202 | flips only the terminal flag |
| EditorStore.EditorState.SetTerminalHeight | src/store/editor.ts:204 | stores the height as given |
| EditorStore.EditorState.ToggleFolder | src/store/editor.ts:206-220 | the tree becomes `ToggleForest` of the old one, keeps its shape, and is unchanged for an unknown path |
| EditorStore.EditorState.OpenCommandPalette | src/store/editor.ts:222 | sets only the palette flag |
| EditorStore.EditorState.CloseCommandPalette | src/store/editor.ts:224 | clears only the palette flag |
| EditorStore.EditorState.OpenSimpleBrowser | src/store/editor.ts:226 | opens the browser on the given URL |
| EditorStore.EditorState.CloseSimpleBrowser | src/store/editor.ts:228 | closes the browser and empties its URL |
| EditorStore.EditorState.CreateFile | src/store/editor.ts:230-257 | the file node is added under the folder (if any); the overlay entry becomes empty whatever it was, even with no folder |
| EditorStore.EditorState.UpdateFileContent | src/store/editor.ts:259-266 | the overlay maps the name to the text and exactly the tabs with the name become dirty |
| EditorStore.EditorState.CreateFolder | src/store/editor.ts:268-294 | a closed empty folder is added under the folder (if any); the overlay is untouched |
| ThemeStore.Other | src/store/theme.ts:30-32 | the other theme is never the same theme |
| ThemeStore.OtherInvolution | src/store/theme.ts:30-32 | swapping twice gives the theme back |
| ThemeStore.Appearance.constructor | src/store/theme.ts:23-28 | dark, anti-gravity on, font size 14, minimap, line numbers and animations on |
| ThemeStore.Appearance.ToggleTheme | src/store/theme.ts:30-32 | swaps the theme and nothing else |
| ThemeStore.Appearance.SetTheme | src/store/theme.ts:34 | sets exactly the given theme and nothing else |
| ThemeStore.Appearance.ToggleAntiGravity | src/store/theme.ts:36-38 | flips only that flag |
| ThemeStore.Appearance.SetFontSize | src/store/theme.ts:40 | stores the size unclamped |
| ThemeStore.Appearance.ToggleMinimap | src/store/theme.ts:42-44 | flips only that flag |
| ThemeStore.Appearance.ToggleLineNumbers | src/store/theme.ts:46-48 | flips only that flag |
| ThemeStore.Appearance.ToggleAnimations | src/store/theme.ts:50-52 | flips only that flag |
| ThemeStore.ToggleThemeTwice | src/store/theme.ts:30-32 | two toggles restore the theme |
| Files.Extension | src/data/files.ts:753 | the last dot-separated piece, lower-cased: it has no dot and is no longer than the name |
| Files.ExtensionOfLastSegment | src/data/files.ts:753 | the extension of `p.e` is `e` lower-cased, whatever `p` holds |
| Files.FileLanguage | src/data/files.ts:752-765 | the table entry for a mapped extension (never `Plain Text`), `Plain Text` otherwise |
| Files.FileIcon | src/data/files.ts:767-778 | the table entry for a mapped extension (never `icon-config`), `icon-config` otherwise |
| Files.IconImpliesLanguage | src/data/files.ts:752-778 | a file with its own icon also has its own language |
| Files.LanguageByLastSegment | src/data/files.ts:752-778 | language and icon depend only on the last piece, ignoring case |
| Files.ExtensionIs | src/data/files.ts:753 | a lower-case last piece is the extension |
| Files.LanguageOfDoubleExtension | src/data/files.ts:752-764 | `x.test.TS` is TypeScript |
| Files.LanguageOfDotFile | src/data/files.ts:752-778 | `.gitignore` is Git Ignore but has the default icon |
| Files.LanguageWithoutDot | src/data/files.ts:753-764 | a file named `md` is Markdown |
| Files.LanguageOfMakefile | src/data/files.ts:753-764 | `Makefile` is Plain Text |
| Files.ExtensionIsWholeName | src/data/files.ts:753 | a lower-case name without a dot is its own extension |
| Files.ExtensionWithoutDot | src/data/files.ts:753 | a name without a dot gives the whole name lower-cased |
| Files.LanguageOfYaml | src/data/files.ts:754-764 | `yaml` is unmapped, so `config.yaml` is Plain Text |
| Files.PlaceholderInjective | src/data/files.ts:749 | different names get different placeholders |
| Files.GetFileContent | src/data/files.ts:748-750 | the bundled text for a present, non-empty entry, else the placeholder naming the file; never empty |
| EditorView.GetContent | src/components/Editor.tsx:178-182 | nothing for no file; the overlay text whenever the overlay has the name, even empty; the bundled text otherwise |
| EditorView.ContentEmptyIff | src/components/Editor.tsx:178-182 | the text is empty exactly when there is no file or the overlay text is empty |
| EditorView.LineCount | src/components/Editor.tsx:186 | at least 20 and at least the number of lines, and one of the two |
| EditorView.IsUserFile | src/components/Editor.tsx:203 | an active file that the overlay has |
| EditorView.FindTab | src/components/Editor.tsx:204 | a found tab is a tab with the name; none exactly when no tab has it |
| EditorView.FindTabFirst | src/components/Editor.tsx:204 | the tab found is the first with the name |
| EditorView.IsDirtyIff | src/components/Editor.tsx:204 | under the tab invariant the marker shows exactly when a tab for the active file is dirty |
| EditorView.IsDirty | src/components/Editor.tsx:204 | the marker shows only for an active file with a dirty tab of that name, never for an active file without a tab |
| EditorView.BreadcrumbPath | src/components/Editor.tsx:207-223 | the table entry for a known name, `anubhav-portfolio > src` otherwise; always starts at the project |
| EditorView.Breadcrumbs | src/components/Editor.tsx:295 | the folders then the file, or nothing without a file |
| EditorView.PaneShown | src/components/Editor.tsx:225-245 | the empty state exactly when there are no tabs, whatever the active file; the text area while editing or for an overlay file |
| EditorView.HighlightSyntax | src/components/Editor.tsx:161-169 | one element per line; for an extension without patterns each element is the line itself |
| EditorView.RenderLine | src/components/Editor.tsx:161-169 | an empty line is a non-breaking space; a non-empty line is markup exactly for a highlighted extension, and raw text otherwise, keeping the line |
| EditorView.HighlightKeepsText | src/components/Editor.tsx:161-169 | the lines the elements come from, joined, give back the text |
| EditorView.GutterCoversLines | src/components/Editor.tsx:186 | the gutter has a number for every rendered line |
| EditorView.EditorPane.constructor | src/components/Editor.tsx:188-189 | starts with the given text, not editing |
| EditorView.EditorPane.Reload | src/components/Editor.tsx:192-194 | the text area is reloaded with `GetContent` of the store |
| EditorView.EditorPane.Focus | src/components/Editor.tsx:330 | focus starts editing |
| EditorView.EditorPane.Blur | src/components/Editor.tsx:331 | blur ends editing |
| EditorView.EditorPane.HandleContentChange | src/components/Editor.tsx:196-201 | the text area takes the value; with an active file the store's overlay and dirty flags are updated, without one they are untouched; the active file and tree are never written |
| Sidebar.CollapseNode | src/components/Sidebar.tsx:218-230 | a folder not named `anubhav-portfolio` is closed; files and such folders keep their flag; all else but children is kept |
| Sidebar.CollapseForest | src/components/Sidebar.tsx:218-230 | the forest keeps its length, and every node keeps every field but its open flag and children |
| Sidebar.CollapseCloses | src/components/Sidebar.tsx:218-230 | after collapsing, every folder at any depth not named `anubhav-portfolio` is closed |
| Sidebar.CollapseFixesCollapsed | src/components/Sidebar.tsx:218-230 | a collapsed tree is left as it is |
| Sidebar.CollapseIdempotent | src/components/Sidebar.tsx:218-230 | collapsing twice is collapsing once |
| Sidebar.CollapseKeepsShape | src/components/Sidebar.tsx:218-230 | names, paths, kinds and child order are kept |
| Sidebar.CollapseKeepsOk | src/components/Sidebar.tsx:218-230 | the tree stays well-formed |
| Sidebar.CollapseAll | src/components/Sidebar.tsx:218-231 | the store's tree becomes the collapsed tree, which is collapsed and has the old shape |
| Sidebar.NodeRows | src/components/Sidebar.tsx:53-102 | a node's rows start with the node itself at its depth |
| Sidebar.Rows | src/components/Sidebar.tsx:53-102 | at least a row per node; the first row is the first node at the given depth; no row is shallower |
| Sidebar.ExplorerRows | src/components/Sidebar.tsx:354-356 | no tree, no rows; otherwise there is at least a row per child of the root, and its first child starts the list at depth 0 |
| Sidebar.RowsSmaller | src/components/Sidebar.tsx:97-102 | every row shown comes from within the listed nodes |
| Sidebar.RootNeverRendered | src/components/Sidebar.tsx:354-356 | the root node never gets a row |
| Sidebar.ClosedShowsOneRow | src/components/Sidebar.tsx:97 | a file or a closed folder shows only its own row |
| Sidebar.ClosedLevelRows | src/components/Sidebar.tsx:97 | a level of files and closed folders shows one row per node |
| Sidebar.CollapsedExplorerRows | src/components/Sidebar.tsx:218-230 | after collapse all, the explorer shows exactly the root's children |
| Sidebar.HandleClick | src/components/Sidebar.tsx:57-63 | a folder click toggles its path, a file click opens the file and highlights its row; only the tree, tabs and active file are written |
| Sidebar.ExplorerPanel.constructor | src/components/Sidebar.tsx:114-117 | both forms hidden and empty |
| Sidebar.ExplorerPanel.HandleNewFile | src/components/Sidebar.tsx:132-135 | shows the file form and hides the folder form |
| Sidebar.ExplorerPanel.HandleNewFolder | src/components/Sidebar.tsx:137-140 | shows the folder form and hides the file form |
| Sidebar.ExplorerPanel.SetNewFileName | src/components/Sidebar.tsx:321 | records the typed name |
| Sidebar.ExplorerPanel.SetNewFolderName | src/components/Sidebar.tsx:341 | records the typed name |
| Sidebar.ExplorerPanel.EscapeNewFile | src/components/Sidebar.tsx:204-209 | hides and empties the file form |
| Sidebar.ExplorerPanel.EscapeNewFolder | src/components/Sidebar.tsx:211-216 | hides and empties the folder form |
| Sidebar.ExplorerPanel.SubmitNewFile | src/components/Sidebar.tsx:142-150 | a blank name changes nothing; otherwise the trimmed name is created under `/src`, opened, and the form reset; only the tree, the user files, the tabs, the active file and the form are written |
| Sidebar.ExplorerPanel.SubmitNewFolder | src/components/Sidebar.tsx:152-159 | a blank name changes nothing; otherwise the trimmed name becomes a folder under `/src` and the form is reset |
| Sidebar.FirstSegment | src/components/Sidebar.tsx:185 | the first piece of `split('/')`: a prefix without `/`, ending at the first `/` |
| Sidebar.UploadFolderName | src/components/Sidebar.tsx:184-185 | the folder name is a slash-free prefix of the relative path |
| Sidebar.UploadedFilesLandInFolder | src/components/Sidebar.tsx:179-201 | after the upload's folder is created under `/src`, a file created at its path is a child of that folder in the tree |
| Sidebar.DraggedWidth | src/components/Sidebar.tsx:655-656 | the pointer position (a real) less 48, clamped to 180..500 |
| Sidebar.SidebarFrame.constructor | src/components/Sidebar.tsx:641-642 | width 260, not dragging |
| Sidebar.SidebarFrame.StartDrag | src/components/Sidebar.tsx:700 | starts a drag |
| Sidebar.SidebarFrame.MouseUp | src/components/Sidebar.tsx:659-663 | ends the drag |
| Sidebar.SidebarFrame.MouseMove | src/components/Sidebar.tsx:653-657 | while dragging the width is the clamped width; otherwise unchanged |
| CommandPalette.Commands | src/components/CommandPalette.tsx:47-75 | the eighteen commands in declaration order |
| CommandPalette.KeepMatching | src/components/CommandPalette.tsx:77-82 | only listed, matching commands, and every matching command |
| CommandPalette.FilteredCommands | src/components/CommandPalette.tsx:77-82 | all commands for the empty query, otherwise the matching ones |
| CommandPalette.FilterIsSubsequence | src/components/CommandPalette.tsx:77-82 | filtering keeps the relative order |
| CommandPalette.FilterSoundComplete | src/components/CommandPalette.tsx:77-82 | a command is shown exactly when it is listed and matches |
| CommandPalette.EmptyQueryKeepsAll | src/components/CommandPalette.tsx:77-82 | every command matches the empty query |
| CommandPalette.OfCategoryMembers | src/components/CommandPalette.tsx:85-91 | a group holds exactly the commands of its category |
| CommandPalette.CategoryOrderMembers | src/components/CommandPalette.tsx:85-91 | the group keys are exactly the categories present, each once |
| CommandPalette.OfCategorySubsequence | src/components/CommandPalette.tsx:85-91 | each group keeps the order of the list |
| CommandPalette.GroupCommands | src/components/CommandPalette.tsx:85-91 | the loop yields, for each category present and no other, the commands of that category in order |
| CommandPalette.CursorDown | src/components/CommandPalette.tsx:106-108 | the smaller of one further and the last index |
| CommandPalette.CursorUp | src/components/CommandPalette.tsx:109-111 | the larger of one back and zero |
| CommandPalette.CursorStaysInRange | src/components/CommandPalette.tsx:106-111 | on a non-empty list the cursor stays in range and moves by one where it can |
| CommandPalette.CursorOnEmptyList | src/components/CommandPalette.tsx:106-111 | with no commands ArrowDown gives -1 and ArrowUp back to 0 |
| CommandPalette.Palette.constructor | src/components/CommandPalette.tsx:40-41 | closed, empty query, selection 0 |
| CommandPalette.Palette.Open | src/components/CommandPalette.tsx:93-99 | opening resets query and selection |
| CommandPalette.Palette.SetQuery | src/components/CommandPalette.tsx:101-103 | a new query resets the selection |
| CommandPalette.Palette.KeyDown | src/components/CommandPalette.tsx:105-121 | arrows move the cursor; Enter runs and closes only on an addressed command; Escape closes |
| CommandPalette.Perform | src/components/CommandPalette.tsx:47-75 | each action's store change; a link hands back its address; a field no action of that kind writes is unchanged |
| PortfolioPage.TotalSlides | src/app/portfolio/page.tsx:293-294 | one slide per window of three: slides + 2 = projects |
| PortfolioPage.SixProjectsFourSlides | src/app/portfolio/page.tsx:293-294 | six projects make four slides |
| PortfolioPage.JsRem | src/app/portfolio/page.tsx:295-296 | JavaScript's truncating remainder |
| PortfolioPage.NextSlide | src/app/portfolio/page.tsx:295 | stays in range and wraps from the last slide to the first |
| PortfolioPage.PrevSlide | src/app/portfolio/page.tsx:296 | stays in range and wraps from the first slide to the last |
| PortfolioPage.PrevNextInverse | src/app/portfolio/page.tsx:295-296 | back undoes forward and forward undoes back |
| PortfolioPage.NextTimesAdd | src/app/portfolio/page.tsx:295 | pressing a times then b times is pressing a + b times |
| PortfolioPage.NextTimesBelow | src/app/portfolio/page.tsx:295 | short of the end each press moves one slide |
| PortfolioPage.FullCycle | src/app/portfolio/page.tsx:295 | as many presses as slides bring the cursor back |
| PortfolioPage.Slice | src/app/portfolio/page.tsx:297 | `slice` clamped to the length |
| PortfolioPage.CurrentSlideProjects | src/app/portfolio/page.tsx:297 | at most three cards from the list; exactly the three from the cursor on any reachable slide |
| PortfolioPage.ShowNavigation | src/app/portfolio/page.tsx:541-578 | arrows and dots show exactly when there are more than three projects |
| PortfolioPage.IndicatorCount | src/app/portfolio/page.tsx:578-580 | one dot per slide when the navigation shows, none otherwise |
| PortfolioPage.SkillsOf | src/app/portfolio/page.tsx:307 | a list exactly when some category has the key |
| PortfolioPage.FilteredSkills | src/app/portfolio/page.tsx:304-307 | every skill for `all`, the category's list for a known key, nothing otherwise |
| PortfolioPage.CategoryInsideAll | src/app/portfolio/page.tsx:304 | each category's list sits unchanged inside the full list |
| PortfolioPage.SkillsOfIsCategory | src/app/portfolio/page.tsx:307 | the list found is that of a category with the key |
| PortfolioPage.FilteredWithinAll | src/app/portfolio/page.tsx:304-307 | whatever is chosen, the skills shown are a contiguous run of the full list |
| PortfolioPage.AllSkillsOfPage | src/app/portfolio/page.tsx:304-307 | the page's 24 skills for `all`, the languages for `languages`, nothing for an unknown key |
| PortfolioPage.Slideshow.constructor | src/app/portfolio/page.tsx:135-136 | first slide, `languages` |
| PortfolioPage.Slideshow.Next | src/app/portfolio/page.tsx:293-295 | the cursor moves to the next slide and stays valid |
| PortfolioPage.Slideshow.Prev | src/app/portfolio/page.tsx:293-296 | the cursor moves to the previous slide and stays valid |
| PortfolioPage.Slideshow.GoTo | src/app/portfolio/page.tsx:580-584 | a dot jumps to its slide |
| PortfolioPage.Slideshow.SetCategory | src/app/portfolio/page.tsx:495 | records the chosen category |
| PortfolioPage.Slideshow.Cards | src/app/portfolio/page.tsx:293-297 | always three cards on screen |
| Gemini.MentionsAnyIff | src/lib/gemini.ts:86 | a group is mentioned exactly when one of its words is a substring |
| Gemini.FeaturedNames | src/lib/gemini.ts:101 | no more names than projects |
| Gemini.FeaturedNamesIff | src/lib/gemini.ts:101 | a name is listed exactly when a featured project has it |
| Gemini.FirstGroup | src/lib/gemini.ts:86-168 | the first mentioned group, none before it |
| Gemini.FallbackResponse | src/lib/gemini.ts:83-169 | the skills answer exactly when a skill word is mentioned; the projects answer lists the featured names; the menu exactly when no group is mentioned |
| Gemini.FallbackIsFirstMatch | src/lib/gemini.ts:83-168 | the answer is that of the first group with a keyword in the lower-cased prompt, the menu if none |
| Gemini.CaseInsensitive | src/lib/gemini.ts:84 | lower-casing the prompt first changes nothing |
| Gemini.NoKeywordMenu | src/lib/gemini.ts:160-168 | no keyword gives the menu |
| Gemini.ProjectsAnswerListsFeatured | src/lib/gemini.ts:100-106 | the projects answer names exactly the featured projects |
| Gemini.WorkBeatsCompiler | src/lib/gemini.ts:100-121 | `work` without a skill word gives the projects answer, whatever else is mentioned |
| Gemini.NoneMentioned | src/lib/gemini.ts:86 | no word of a group occurs when each has a letter the text lacks |
| Gemini.ThoseIsAboutArgon | src/lib/gemini.ts:111 | `What about those?` gets the operating-system answer |
| Gemini.WorkOnCompiler | src/lib/gemini.ts:100 | `my work on a compiler` gets the projects answer |
| Gemini.GeminiResponse | src/lib/gemini.ts:49-54 | an empty key answers at once with the key message and asks no client; any other key asks it |
| SimpleBrowser.DisplayUrl | src/components/SimpleBrowser.tsx:37-39 | a `/` path is shown under `http://localhost:3000`; anything else as is; the stored URL is always a suffix |
| SimpleBrowser.DisplayIdempotent | src/components/SimpleBrowser.tsx:37-39 | showing a shown address again changes nothing |
| SimpleBrowser.DisplayMergesLocalAddresses | src/components/SimpleBrowser.tsx:37-39 | a path and its full local address are shown alike |
| SimpleBrowser.BrowserView.constructor | src/components/SimpleBrowser.tsx:17-19 | the typed address is the store's URL at mount |
| SimpleBrowser.BrowserView.ShownAddress | src/components/SimpleBrowser.tsx:37-39 | the address shown ends with the store's URL, and is that URL when it is not a site path |
| SimpleBrowser.BrowserView.Type | src/components/SimpleBrowser.tsx:73-74 | typing records the address to go to |
| SimpleBrowser.BrowserView.Navigate | src/components/SimpleBrowser.tsx:23-28 | starts loading and opens the typed address |
| SimpleBrowser.BrowserView.Refresh | src/components/SimpleBrowser.tsx:30-34 | starts loading and bumps the frame key by exactly one |
| SimpleBrowser.BrowserView.LoadingDone | src/components/SimpleBrowser.tsx:27-33 | the timer ends loading |
| SimpleBrowser.BrowserView.Home | src/components/SimpleBrowser.tsx:58-59 | opens `/portfolio`, shown as its local address |
| Text.Lower | src/components/Terminal.tsx:123 | each character lower-cased, the length kept |
| Text.Trim | src/components/Terminal.tsx:123 | the text without leading and trailing whitespace |
| Text.JoinSplit | src/components/Terminal.tsx:123 | joining the pieces of a split gives the text back |
| Terminal.Tokens | src/components/Terminal.tsx:123-125 | at least one token, none with a space |
| Terminal.TokensLowercase | src/components/Terminal.tsx:123 | no token has a capital, file names included |
| Terminal.StoredCode | src/components/Terminal.tsx:308-311 | a file's text only when present and non-empty |
| Terminal.OutputLines | src/components/Terminal.tsx:330 | one output line per string, in order |
| Terminal.ExecuteJs | src/components/Terminal.tsx:307-334 | a missing or empty file is not found; a throw shows only its message; no calls show the success line; otherwise one line per console call |
| Terminal.QuotedPrintIff | src/components/Terminal.tsx:351 | the quoted-print pattern matches exactly the lines of that shape, capturing the literal |
| Terminal.PlainPrintIff | src/components/Terminal.tsx:358 | the plain-print pattern matches exactly `print(...)` with whitespace around, capturing the argument |
| Terminal.PythonLineByPatterns | src/components/Terminal.tsx:347-367 | a line gives a quoted literal if it matches the first pattern, else its argument without quotes if it matches the second, else nothing |
| Terminal.PrintLiteral | src/components/Terminal.tsx:351-353 | `print("lit")` prints `lit` |
| Terminal.CollectConcat | src/components/Terminal.tsx:347-367 | the printed lines of two parts are those of each part in order |
| Terminal.PythonResult | src/components/Terminal.tsx:337-375 | a missing or empty file is not found; no printed line gives the success line; otherwise one line per print in order |
| Terminal.FreshFileNotFound | src/components/Terminal.tsx:338-341 | a just-created file is reported not found |
| Terminal.ExecutePython | src/components/Terminal.tsx:337-375 | the loop computes `PythonResult` |
| Terminal.ProjectLines | src/components/Terminal.tsx:154-163 | three lines per featured project |
| Terminal.Classify | src/components/Terminal.tsx:127-302 | a recognised command is the one whose word the token is |
| Terminal.ClassifyWord | src/components/Terminal.tsx:127-302 | each command's word selects that command |
| Terminal.ClassifyUnknown | src/components/Terminal.tsx:301-302 | the default case exactly when the token is no command's word |
| Terminal.NpmOutcome | src/components/Terminal.tsx:220-263 | the only effect is a deferred opening of the portfolio page |
| Terminal.RunLines | src/components/Terminal.tsx:278-288 | usage without a file; by lower-cased last extension the JS runner, the Python runner or the refusal |
| Terminal.OpenTarget | src/components/Terminal.tsx:294 | as typed when it starts with `http`, else under `https://`; always starts with `http` |
| Terminal.Dispatch | src/components/Terminal.tsx:127-303 | the log is cleared exactly by `clear`; the browser opens exactly by `open` with an address; a window exactly by the three profile commands; only `npm` defers |
| Terminal.ProcessCommand | src/components/Terminal.tsx:122-304 | on the command's first word: the log is cleared exactly by `clear`; the browser opens exactly by `open` with an address; a window exactly by the three profile commands; only `npm` defers |
| Terminal.Respond | src/components/Terminal.tsx:127-303 | the same effects, stated on the split words |
| Terminal.BlankCommand | src/components/Terminal.tsx:298-299 | whitespace only gives no lines and no effect |
| Terminal.UnknownCommand | src/components/Terminal.tsx:301-302 | a first token that is no command's word gives exactly the not-found line naming it |
| Terminal.BlankTokens | src/components/Terminal.tsx:298-299 | a single empty token gives no lines and no effect |
| Terminal.EchoTokens | src/components/Terminal.tsx:214-215 | `echo` prints its arguments joined by single spaces and has no effect |
| Terminal.EchoArgsJoin | src/components/Terminal.tsx:123-125 | the arguments of `echo` joined again give back the text after `echo `, runs of spaces included |
| Terminal.EchoPrintsRest | src/components/Terminal.tsx:214-215 | `echo` prints the lower-cased rest, runs of spaces included |
| Terminal.EchoHelloWorld | src/components/Terminal.tsx:214-215 | `echo Hello World` prints `hello world` |
| Terminal.RunDispatch | src/components/Terminal.tsx:278-288 | for any tokens starting `run`, the runner is picked by the extension of the second token before any lookup |
| Terminal.RunMissingScript | src/components/Terminal.tsx:308-311 | `run` on a `.js` name with no stored text reports the file not found |
| Terminal.HelpPrintsBanner | src/components/Terminal.tsx:128-129 | a first token `help` prints the help banner whatever follows |
| Terminal.OpenCommand | src/components/Terminal.tsx:290-296 | `open` with an address says so and opens the embedded browser on the normalised address |
| Terminal.NpmRunDev | src/components/Terminal.tsx:221-233 | `npm run dev` prints seven lines and opens the page after 1500 ms |
| Terminal.ClearOnlyFromClear | src/components/Terminal.tsx:187-189 | for any tokens, the log is emptied only when the first is `clear` |
| Terminal.BrowserOnlyFromOpen | src/components/Terminal.tsx:290-296 | for any tokens, the embedded browser opens only when the first is `open` and an address follows |
| Terminal.WindowOnlyFromLinks | src/components/Terminal.tsx:175-185 | for any tokens, a window opens only when the first is one of the profile commands |
| Terminal.DeferredOnlyFromNpm | src/components/Terminal.tsx:220-263 | for any tokens, an opening is scheduled only when the first is `npm`, and always of the portfolio page |
| Terminal.ClearCommand | src/components/Terminal.tsx:187-189 | `clear` prints nothing and asks for the log to be emptied |
| Terminal.Session.constructor | src/components/Terminal.tsx:69-75 | the welcome lines, empty prompt and history, cursor -1 |
| Terminal.Session.SetInput | src/components/Terminal.tsx:73 | records the typed text |
| Terminal.Session.Submit | src/components/Terminal.tsx:377-391 | blank input is ignored; otherwise the echo and the output are appended (the log emptied for `clear`), the raw input is recorded and the cursor reset |
| Terminal.Session.SubmitAsWritten | src/components/Terminal.tsx:377-391 | the later write wins: `clear` leaves the old log with `$ clear` appended; the browser fields and the pending effect are set as by the command's outcome |
| Terminal.Session.KeyDown | src/components/Terminal.tsx:393-412 | the cursor stays in -1..len-1; up recalls one further back and stops at the oldest; down from 0 empties the prompt |
| Terminal.Session.ClearButton | src/components/Terminal.tsx:486 | the button empties the log |

## Left out

- Browser side effects are effect tags in the model. These are `window.open`, the
  `setTimeout` that opens the embedded browser after `npm`, and the 500 ms timers that end
  the browser's loading indicator. `Terminal.Session.Submit` hands the tags back to its
  caller.
- The JavaScript runner's evaluation is a parameter (`eval`). It maps the code to the
  console calls it makes or to the message it throws. Only the file guard and the mapping
  from calls to lines are modelled.
- Clocks are parameters. `Date.now()` in the store's ids is `now`, and the text printed by
  `date` is given.
- The static contents are constants or parameters: the portfolio record, the bundled file
  texts, the help and neofetch banners, and the assistant's answer texts. The assistant's
  answers are tags; only the list of featured names is kept.
- `Terminal.Dispatch` takes the two banners from its context. `Terminal.TerminalBanners`
  holds the page's texts.
- Lower-casing covers ASCII letters only. JavaScript's `toLowerCase` also maps other
  alphabets.
- Text is sequences of characters. UTF-16 surrogate pairs and Unicode normalisation are not
  modelled.
- Object-key lookups are map lookups: names that clash with `Object.prototype` members are
  not modelled. This covers `userFiles[name]`, the breadcrumb, language and icon tables and
  `skillCategories[key]`.
- File uploads: where the folder and files land in the tree is modelled. The asynchronous
  reading (`FileReader`, then timers) and the order in which files arrive are not.
- Sidebar.DraggedWidth: exact reals; the double rounding of `clientX - 48` is not modelled.
- These are not modelled: the terminal's drag height (floating point), the page's particle
  animation, the landing and loading screens, the title bar and the layout's keyboard
  wiring.
- The highlighter's HTML is a tag per line: the markup text is not produced.
- Palette rendering, icons and scrolling are not modelled; the palette's own state is.
- The assistant's network client is not modelled beyond the empty-key guard.
- The `persist` middleware of the appearance store is not modelled (local storage).
- `executePython`'s `catch` is not modelled: the loop cannot throw.
- Terminal.Session.KeyDown: the code calls `preventDefault` on the arrows, which moves no
  state and is not modelled.

## Findings

| source | as written | input that shows it | evidently intended | confidence | as-written member | corrected member |
|---|---|---|---|---|---|---|
| src/components/Terminal.tsx:381-387 | `clear` calls `setLines([])`, then `handleSubmit` writes the old lines plus `$ clear`, and the later write wins | submitting `clear` with any log | the log is emptied, as the Clear button does | not executed | Terminal.Session.SubmitAsWritten | Terminal.Session.Submit |
