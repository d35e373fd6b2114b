# Legal-document form and glossary search, modelled in Dafny

The application lets a user pick a legal-document template (lease, services
contract, non-disclosure agreement, complaint, sale agreement), fill in a form
whose fields depend on the template, and save the result as a document record;
a second page shows a glossary of legal terms narrowed by a search box. This
project models the two pieces of real logic in those pages:

- the document page (`Dashboard.dfy`): the table of selectable document types,
  the per-type form schema (`FormFields`), the required-field gate that runs
  before a document is saved (`MissingFields`, `CheckSubmission`), the title
  fallback, and the page's state (`DocumentForm`: selected type, entered values,
  loading flag) with its change handlers and its submit handler;
- the glossary page (`LegalTerms.dfy`): the case-insensitive search over term,
  definition and category (`FilterTerms`) and the page state around it
  (`GlossaryView`: fetched terms, shown terms, query, loading flag).

Helpers: `Seqs.dfy` models `Array.prototype.filter` as an order-preserving
`Filter` with its properties; `Strings.dfy` models `toLowerCase` as an ASCII
case fold and `includes` as substring containment; `Options.dfy` holds `Option`.

The backend is not modelled. What the submit handler learns from it becomes two
parameters of `DocumentForm.GeneratePdf`: the user returned by the
authentication lookup (`None` when nobody is signed in) and whether the insert
reported an error. The glossary fetch becomes a `FetchOutcome` value.

## Model

| member | source | states |
|---|---|---|
| Dashboard.FormFields | src/pages/Dashboard.tsx:28-79 | every schema has at least five fields, starts with `titulo`, marks every field required and has pairwise distinct names; the four contract types start with the five common fields in order and add more; any other tag, `""` included, gets exactly the common fields |
| Dashboard.SelectableTypesHaveOwnSchema | src/pages/Dashboard.tsx:20-26 | the selector offers five types, each with a schema of its own (not the fallback), and every type with its own schema is offered |
| Dashboard.ComplaintSchemaIsOwn | src/pages/Dashboard.tsx:59-68 | the complaint schema has its own `titulo` descriptor and none of the four party fields of the common schema |
| Dashboard.MissingFields | src/pages/Dashboard.tsx:91-94 | a field is reported missing exactly when it is in the schema, required, and absent from the form data or mapped to `""`; the missing fields keep schema order |
| Dashboard.FieldChangeMissing | src/pages/Dashboard.tsx:147-149 | after a field change, fields of other names are missing exactly as before, and fields of the changed name are missing exactly when the new value is empty |
| Dashboard.CheckSubmission | src/pages/Dashboard.tsx:81-103 | rejection for "no type" happens exactly when the type is `""`; otherwise the form is accepted exactly when every required schema field is filled, and a rejection lists a non-empty, ordered set of required unfilled schema fields |
| Dashboard.StoredTitle | src/pages/Dashboard.tsx:120 | the stored title is never empty: the entered `titulo` when filled, otherwise "Documento sin título" |
| Dashboard.AcceptedTitleIsEntered | src/pages/Dashboard.tsx:91-120 | a form the gate accepts always has a non-empty `titulo`, so the fallback title is never used |
| Dashboard.DocumentForm.constructor | src/pages/Dashboard.tsx:15-17 | the page starts with no type selected, no entered values and loading off |
| Dashboard.DocumentForm.SelectDocumentType | src/pages/Dashboard.tsx:167 | the selector sets the type and leaves the entered values and the loading flag alone |
| Dashboard.DocumentForm.FieldChange | src/pages/Dashboard.tsx:147-149 | the changed key maps to the new value, every other key keeps its value, no key disappears, and the type and loading flag are unchanged |
| Dashboard.DocumentForm.GeneratePdf | src/pages/Dashboard.tsx:81-145 | a rejected form is blocked with the gate's reason and nothing changes; otherwise loading is off afterwards; without a user nothing is inserted and the form is kept; with a user the row carries the user, the type, the stored title and all entered values; a successful insert clears the values and the type, a failed one keeps them; a saved row's title is the entered `titulo` |
| Seqs.Filter | src/pages/LegalTerms.tsx:30-35 | the filtered list is no longer than the input and every element of it satisfies the predicate |
| Seqs.FilterMembership | src/pages/LegalTerms.tsx:30-35 | an element is in the filtered list exactly when it is in the input and satisfies the predicate |
| Seqs.FilterCount | src/pages/LegalTerms.tsx:30-35 | each element appears in the filtered list as often as in the input when it satisfies the predicate, and not at all otherwise |
| Seqs.FilterIsSubsequence | src/pages/LegalTerms.tsx:30-35 | the filtered list is an order-preserving sublist of the input |
| Seqs.FilterKeepsAll | src/pages/LegalTerms.tsx:30-35 | filtering a list whose elements all satisfy the predicate returns the list itself |
| Seqs.FilterCongruent | src/pages/LegalTerms.tsx:30-35 | predicates that agree on the input's elements filter it identically |
| Seqs.FilterNarrows | src/pages/LegalTerms.tsx:30-35 | filtering by a weaker predicate and then a stronger one equals filtering by the stronger one |
| Seqs.SubsequenceBounds | src/pages/LegalTerms.tsx:30-35 | an ordered sublist is no longer than the list and holds only its elements |
| Strings.LowerChar | src/pages/LegalTerms.tsx:32-34 | the folded character is never an upper-case ASCII letter; an upper-case letter becomes its lower-case partner and every other character is kept |
| Strings.Lower | src/pages/LegalTerms.tsx:32-34 | the folded string has the same length and folds each character in place |
| Strings.Contains | src/pages/LegalTerms.tsx:32-34 | the empty needle is always contained, and a contained needle is never longer than the haystack |
| Strings.ContainsIffOccurs | src/pages/LegalTerms.tsx:32-34 | containment holds exactly when the needle occurs at some index of the haystack |
| Strings.ContainsTransitive | src/pages/LegalTerms.tsx:32-34 | a substring of a substring is a substring |
| LegalTerms.FilterTerms | src/pages/LegalTerms.tsx:28-40 | the empty query shows every term; a non-empty query shows exactly the terms whose lower-cased term, definition or category contains the lower-cased query; never more terms than were fetched |
| LegalTerms.FilterTermsIsOrderedSublist | src/pages/LegalTerms.tsx:30-35 | the shown list is an order-preserving sublist of the fetched list, and each matching term is shown as often as it was fetched |
| LegalTerms.FilterTermsCaseInsensitive | src/pages/LegalTerms.tsx:32-34 | a query and its lower-cased form show the same terms |
| LegalTerms.FilterTermsIdempotent | src/pages/LegalTerms.tsx:30-36 | searching the shown list again with the same query changes nothing |
| LegalTerms.FilterTermsNarrows | src/pages/LegalTerms.tsx:30-35 | extending a query (the old one occurs in the new one, ignoring case) shows an ordered sublist of what the old query showed, and equals searching that list |
| LegalTerms.InitialView | src/pages/LegalTerms.tsx:18-21 | the page starts loading, with no terms, the empty query, shown list in sync |
| LegalTerms.ApplyFetch | src/pages/LegalTerms.tsx:42-62 | after the fetch loading is off; on success the fetched list and the shown list are both the returned rows (none when the backend returns null), which is in sync when the query is empty; on failure both lists are kept |
| LegalTerms.SearchEffect | src/pages/LegalTerms.tsx:28-40 | after the effect the shown list is the search over the fetched list; nothing else changes, and a view already in sync is left as it is |
| LegalTerms.FetchCompletes | src/pages/LegalTerms.tsx:28-62 | after a fetch completes loading is off and the query is kept; on success the fetched list is the returned rows and, because the new list re-runs the effect, the shown list is the search over them (all of them under the empty query); on failure both lists are kept; a view in sync stays in sync |
| LegalTerms.TypeQuery | src/pages/LegalTerms.tsx:80-85 | typing replaces the query and the effect brings the shown list back in sync, never longer than the fetched list |

## Left out

- Backend calls (authentication lookup, document insert, glossary select and its server-side ordering by term): foreign I/O; their results are inputs to the model.
- Toast notifications and their messages, JSX rendering, the spinner text and the disabled state of the button while loading: presentation only.
- React's scheduling of state updates and effects: each handler is modelled as one atomic step, and `LegalTerms.SearchEffect` is applied explicitly after each change that would trigger it (by `LegalTerms.TypeQuery` after a query change and by `LegalTerms.FetchCompletes` after a successful fetch).
- Full Unicode `toLowerCase`: `Strings.LowerChar` folds only the ASCII letters A to Z.
- The HTML input types `number` and `date`: they are kept in the field descriptors as `InputKind` but every entered value is an unvalidated string.
- PDF generation, which the source leaves unimplemented.
- `src/pages/History.tsx`: a fetch, a delete and a table render with no local logic.
- Dashboard.DocumentForm.GeneratePdf: the `loading` flag is raised during the backend calls and lowered after them inside one step, so the model states only its final value. Because the handler is one step, edits made while the two backend calls are pending (the inputs and the selector stay enabled; only the button is disabled) are not modelled: in the page the row carries the values from the moment of the click, a successful save also discards those later edits, and after a failed insert the form holds them rather than the values at the click.
