# Resume builder: document state model

This project models the state core of a browser resume builder in Dafny. The
core is one resume document: a personal-info object (`name`, `email`, `phone`)
and three ordered lists (`education`, `workExperience`, `skills`) of entry
objects. Three updaters change it:

- `handleInputChange` sets one field.
- `addItem` appends the empty entry `{}`.
- `removeItem` filters out one position.

A completeness ("ATS") score is derived from the document. The document is
loaded from local storage or built as an empty skeleton at start, and written
back under the key `resumeData` after every change. The preview projects it
through one of two templates, `modern` and `classic`.

Files and modules:

- `resume.dfy`:
  - `Resume`: the document, sections and skeleton.
  - `Optional`: an option type.
  - `Lists`: the positional `filter` used by `removeItem`.
- `editor.dfy`, module `Editor`: the three updaters.
- `score.dfy`, module `AtsScore`: the score, as the section loop and in closed form.
- `preview.dfy`, module `Preview`: the templates as pure projections.
- `app.dfy`, module `App`: start-up, the template default, the save effect and sessions of user actions.

Modelling choices:

- Entry and personal-info objects are `map<string, string>`. A missing field
  reads as `""`, as the editor's `|| ''` and the preview's rendering of
  `undefined` both do.
- Sections form a closed type. A personal-info edit carries no index; a list
  edit carries one.
- Local storage is a map from key to an already decoded document. JSON
  encoding and decoding are taken as the identity on documents made of strings.
- Each template is a view written out from its own markup (`ModernView`,
  `ClassicView`). Both are proved equal to one shared `Render` shape under a
  `Layout`, which holds the class names that differ between them. A view's
  displayed content is the sequence of text values it shows, in reading order.

Behaviour of the code that the model keeps as written:

- Unknown template: `templates[activeTemplate]` has no fallback. For a key
  other than `modern` or `classic` the preview body is empty
  (`Preview.Selected` gives `None`).
- Removal at a bad index: `filter` keeps every entry, so removing from an
  empty list or at an out-of-range index is a no-op (`Editor.RemoveItem`).
- Score cap: only the total is capped at 100. No list's contribution is capped
  on its own, so one long list can reach the cap alone (`AtsScore.Score`).
- Stored value: `JSON.parse` has no `try` around it, so a malformed stored value
  throws. The model keeps only decoded documents in storage (see Left out).

## Model

| member | source | states |
|---|---|---|
| `Resume.SkeletonIsEmpty` | src/App.jsx:43-47 | The skeleton has exactly the fields name, email and phone, each reads as empty, and all three lists are empty. |
| `Lists.WithoutIndex` | src/components/ResumeEditor.jsx:36 | Filtering out position `index` deletes exactly that element and keeps the rest in order (`xs[..index] + xs[index+1..]`). An index outside `[0, |xs|)` returns the list unchanged. |
| `Lists.AppendThenRemoveLast` | src/components/ResumeEditor.jsx:29-36 | Appending an element and then filtering out its position gives back the original list. |
| `Editor.HandleInputChange` | src/components/ResumeEditor.jsx:15-23 | A personal-info edit sets that field to the value, leaves every other personal-info field as it was, and leaves all lists alone. An indexed edit sets the named field of the entry at `index`. That entry's other fields, every other entry, the list length, personal info and the other lists are unchanged. |
| `Editor.AddItem` | src/components/ResumeEditor.jsx:26-31 | The list grows by one. The earlier entries are unchanged and the new last entry is the empty object, so it reads as empty in every field. Personal info and the other lists are untouched. |
| `Editor.RemoveItem` | src/components/ResumeEditor.jsx:33-38 | An in-range index deletes exactly that entry and keeps the order of the rest. An out-of-range index returns the document unchanged. Other sections are untouched. |
| `Editor.RemoveShiftsLaterEntries` | src/components/ResumeEditor.jsx:33-37 | After an in-range removal the list is one shorter. Entries before the index keep their positions; entries after it move down by one. |
| `Editor.AddThenRemoveRestores` | src/components/ResumeEditor.jsx:26-37 | `addItem(s)` followed by `removeItem(s, oldLength)` restores the whole document exactly. |
| `AtsScore.Score` | src/components/ResumeEditor.jsx:42-55 | The score lies in [0, 100] and is a multiple of ten. It is at most ten times the number of filled personal-info fields plus all entries, and equals either that or the cap, so it is exactly min(100, 10 · items). |
| `AtsScore.TotalOfAllSections` | src/components/ResumeEditor.jsx:44-52 | Visiting the four sections in the source's order adds ten per truthy personal-info value and ten per list entry. |
| `AtsScore.CalculateAtsScore` | src/components/ResumeEditor.jsx:42-55 | The `forEach` accumulation over the four sections followed by `Math.min(100, score)` equals the closed-form score. |
| `AtsScore.FilledAfterSet` | src/components/ResumeEditor.jsx:50 | Setting one personal-info field changes the count of truthy values as follows: +1 when an empty field is filled, −1 when a filled one is cleared, and no change otherwise. |
| `AtsScore.EntryEditKeepsScore` | src/components/ResumeEditor.jsx:47-48 | Editing a field inside a list entry never changes the score, because lists count only by length. |
| `AtsScore.FillingFieldRaisesScore` | src/components/ResumeEditor.jsx:49-54 | Filling a previously empty personal-info field raises the score by ten, up to the cap, so it never lowers it. |
| `AtsScore.ClearingFieldLowersScore` | src/components/ResumeEditor.jsx:49-54 | Clearing a filled personal-info field never raises the score. |
| `AtsScore.AddItemRaisesScore` | src/components/ResumeEditor.jsx:46-54 | Adding an entry raises the score by ten, up to the cap, so it never lowers it. |
| `AtsScore.RemoveItemLowersScore` | src/components/ResumeEditor.jsx:46-54 | Removing an entry never raises the score. An out-of-range removal leaves it unchanged. |
| `AtsScore.SkeletonScoresZero` | src/App.jsx:43-46 | The empty skeleton scores 0. |
| `AtsScore.AdaScenario` | src/components/ResumeEditor.jsx:15-54 | Start from the skeleton and fill name and email: the score is 20. Then add a skill and name it: the score is 30. |
| `Preview.RenderShowsOutline` | src/components/ResumePreview.jsx:25-53 | Under any layout, the rendered view displays exactly the outline, in this order: name, email, phone, the Education heading and each education entry's institution, degree and year, the Work Experience heading and each job's company, position, duration and description, then the Skills heading and each skill's name. |
| `Preview.TemplatesShowSameContent` | src/components/ResumePreview.jsx:24-85 | `modern` and `classic`, each written out from its own markup, display the identical text sequence for every document, although their views differ. |
| `Preview.TemplatesFollowLayouts` | src/components/ResumePreview.jsx:25-84 | Each template's markup is the one shared block shape under its own class names (`ModernLayout`, `ClassicLayout`). |
| `Preview.RenderLayout` | src/components/ResumePreview.jsx:26-52 | The view has 4 + |education| + |workExperience| + |skills| blocks. The header and the Education heading come first. Then come one block per education entry in list order, the Work Experience heading, one block per job in order, the Skills heading and one item per skill in order. The headings are present even when their list is empty. |
| `Preview.UnknownTemplateShowsNothing` | src/components/ResumePreview.jsx:103 | A key selects a template exactly when it is `modern` or `classic`. Any other key displays nothing; there is no fallback. |
| `App.Save` | src/App.jsx:61-63 | After a save, key `resumeData` holds the whole document. No other key is added or changed. |
| `App.Start` | src/App.jsx:39-63 | A fresh page starts on template `modern`. It uses the stored document when one is present and the skeleton otherwise. The start-up save writes that document under `resumeData` and leaves every other key as it was. |
| `App.Step` | src/App.jsx:57-63 | A template choice changes neither the document nor storage. An edit, add or remove replaces the document with exactly what `handleInputChange`, `addItem` or `removeItem` produces, then saves that document; the template stays as it was. |
| `App.StepKeepsSaved` | src/App.jsx:61-63 | Every user action keeps storage in step with the current document. |
| `App.RunKeepsSaved` | src/App.jsx:61-63 | After any sequence of actions, storage holds the current document and every other key is unchanged. |
| `App.ReloadRestoresDocument` | src/App.jsx:41-42 | Reopening the page after any session restores its last document. The template is back to `modern`, whatever was chosen before. |
| `App.TemplateNotPersisted` | src/App.jsx:57-62 | The template key never reaches storage. Sessions that differ only in the template produce the same document and storage for the same change. |
| `App.FallbacksAgree` | src/App.jsx:40-54 | With nothing stored, the browser branch and the no-window branch both yield the skeleton. Its fields read as empty, its lists are empty and its score is 0. |
| `App.OfferedTemplatesRender` | src/components/ResumeEditor.jsx:72-73 | Each template the selector offers is one the preview renders. The default `modern` is among them. |

## Left out

- `downloadPDF` (html2canvas capture, jsPDF page scaling, the `resume.pdf` download): asynchronous foreign calls and floating-point arithmetic.
- `localStorage` and `JSON.parse`/`JSON.stringify`: browser I/O and foreign serialisation. Storage holds decoded documents. The model has no value that fails to decode, and so no `JSON.parse` exception.
- A stored empty string: `saved ? ... : skeleton` would treat it as absent. The program's own writes never store one, and decoded storage cannot hold one.
- React scheduling: when `useState` initialisers and `useEffect` callbacks run. The save is modelled as happening right after each change and once at start.
- The no-window host: only its choice of initial document is modelled. Storage effects are modelled only for the browser.
- The editor's JSX forms, the `activeSection` tab state, animations, routing, the theme toggle, the mobile menu and the static pages: markup with no logic on the document. From the forms, the model keeps two facts: the offered templates and the `|| ''` reading of missing fields.
- CSS: classes are kept only as the `Layout` values that tell the two templates apart. Nothing about their visual effect is modelled.
- Editor.HandleInputChange: requires an indexed edit's index to be in range. At an out-of-range index, JavaScript would grow the array or leave holes in it; the editor only issues indices of existing entries.
- Editor.Edit: two combinations cannot be expressed. An index on `personalInfo` makes JavaScript throw when spreading an object into an array. A list section without an index turns the array into an object. The editor issues neither.
- Preview.UnknownTemplateShowsNothing: keys that a JavaScript object literal inherits from `Object.prototype` are not modelled. `templates["__proto__"]` is an object, which React refuses to render, and `"constructor"` or `"toString"` give functions, which render as nothing. The model treats them like any other unknown key. The template selector only ever issues `modern` or `classic`.
