# ProdigyPM PRD core, modelled in Dafny

ProdigyPM is a small product-requirements-document (PRD) authoring tool. This
project models its three pieces of real logic and proves properties of them:

- **The document assembler** (`frontend/src/components/PRDGenerator.tsx`).
  Pure string templating turns five free-text form fields (problem statement,
  target audience, goals, features, constraints) into a full PRD record: a
  title and six derived lists (objectives, user stories, requirements,
  acceptance criteria, metrics, risks). Module `Assembler`. The JavaScript
  string built-ins it relies on (`split(" ")`, `slice(0, 6)`, `join(" ")`,
  and `replace("-", " ")`) are modelled in module `Text`. The screen's state is
  modelled in module `GeneratorState`: the thirteen-key form dictionary,
  `handleInputChange` and `generatePRD`, in class `PrdGenerator`.
- **The PRD store** (`backend/routes/prdRoutes.js` over the schema of
  `backend/models/PRD.js`). The schema is module `PrdSchema`: the document
  shape, the required `userId` and `title`, the `createdAt` default, and the
  casting of JSON body values. The routes are module `PrdRoutes`. Class
  `PrdStore` holds an append-only sequence of documents and offers `Create`
  (`POST /`) and `ListByOwner` (`GET /:userId`). The pure function
  `CreateOutcome` specifies `Create`, and the lemmas about it carry the
  store's guarantees.
- **The template catalog** (`frontend/src/components/Templates.tsx`). It holds
  six constant entries with their full seed texts, `getIcon` (as a glyph and
  tint tag), `getBorderColor` and the displayed category label. Module
  `Templates`.

The shared record shapes of `frontend/src/types/prd.ts` are datatypes in
module `PrdTypes`. Clock reads (`new Date()`, `Date.now`) become a `Time`
parameter. Whether the database accepts a write or a read becomes a boolean
parameter (`writable`, `readable`).

Facts about the code that the model makes explicit:
- The fallback title "Product Requirement Document" at
  `PRDGenerator.tsx:80` is unreachable, because `"".split(" ")` is `[""]` and
  every split has at least one piece. An empty problem statement gets the
  title `"PRD: ..."` (`Assembler.EmptyStatementTitle`).
- `slice(0, 6)` keeps six space-separated pieces, so a statement with up to
  five spaces appears whole in its title (`Assembler.ShortStatementTitle`).
- `POST /` replies 201 with a message only, and no identifier
  (`PrdRoutes.CreateOutcome`).
- `GET /:userId` returns what `find` returns, and nothing sorts it, so
  `ListByOwner` promises the owner's records in some order.

## Model

| member | source | states |
|---|---|---|
| Text.Split | frontend/src/components/PRDGenerator.tsx:77 | `split(" ")` yields one more piece than the string has spaces, so never zero pieces, and no piece contains a space |
| Text.Take | frontend/src/components/PRDGenerator.tsx:77 | `slice(0, n)` is a prefix of the list, of length `min(n, length)` |
| Text.Join | frontend/src/components/PRDGenerator.tsx:79 | `join(" ")` of a single piece is that piece; with `Text.JoinSplit` and `Text.SplitJoin` it is the inverse of `split(" ")` |
| Text.JoinSplit | frontend/src/components/PRDGenerator.tsx:77-79 | joining the pieces of a split with single spaces gives back the original string |
| Text.SplitJoin | frontend/src/components/PRDGenerator.tsx:77-79 | splitting a join of space-free pieces gives back the pieces |
| Text.ReplaceFirst | frontend/src/components/Templates.tsx:258 | `replace` with a one-character pattern keeps the length of the string; `Text.ReplaceFirstAt` states which character changes |
| Text.ReplaceFirstAt | frontend/src/components/Templates.tsx:258 | `replace` with a one-character pattern changes exactly the first occurrence, and nothing when there is none |
| Text.ReplaceFirstCount | frontend/src/components/Templates.tsx:258 | replacing the first hyphen removes exactly one hyphen, if there is one |
| Assembler.ExtractTitle | frontend/src/components/PRDGenerator.tsx:76-81 | the title is never empty |
| Assembler.ExtractTitleShape | frontend/src/components/PRDGenerator.tsx:76-81 | every title is `"PRD: " + text + "..."` and never the fallback; `text` is a prefix of the statement holding min(spaces, 5) of its spaces; `text` is the whole statement iff the statement has at most five spaces, and otherwise ends just before the sixth space |
| Assembler.EmptyStatementTitle | frontend/src/components/PRDGenerator.tsx:76-81 | the empty statement gets `"PRD: ..."`, so the fallback branch is dead |
| Assembler.ShortStatementTitle | frontend/src/components/PRDGenerator.tsx:77-79 | a statement with at most five spaces appears whole between `"PRD: "` and `"..."` |
| Assembler.GenerateObjectives | frontend/src/components/PRDGenerator.tsx:83-88 | four objectives; the first is the fixed prefix followed by the goals verbatim |
| Assembler.ObjectivesDetermineGoals | frontend/src/components/PRDGenerator.tsx:83-88 | objectives 1 to 3 do not depend on the goals; equal objectives iff equal goals |
| Assembler.GenerateUserStories | frontend/src/components/PRDGenerator.tsx:90-97 | three stories: the first puts the audience and the features into the usage template, the second puts the audience into the design template, the third is the fixed stakeholder story |
| Assembler.UserStoriesDetermineInputs | frontend/src/components/PRDGenerator.tsx:90-97 | stories 1 and 2 do not depend on the features; equal stories iff equal audience and equal features: the second story fixes the audience, and the first then fixes the features |
| Assembler.GenerateRequirements | frontend/src/components/PRDGenerator.tsx:99-109 | nine lines; line 1 is `"- Implement "` followed by the features; for every input the functional header is only at 0, the blank line only at 4 and the non-functional header only at 5; all other lines are `"- "` bullets |
| Assembler.RequirementsDetermineFeatures | frontend/src/components/PRDGenerator.tsx:99-109 | every line but line 1 is the same for all features; equal requirements iff equal features |
| Assembler.GenerateAcceptanceCriteria | frontend/src/components/PRDGenerator.tsx:111-116 | four criteria, each starting with the check mark |
| Assembler.GenerateMetrics | frontend/src/components/PRDGenerator.tsx:118-123 | four metrics, with the 80%/30-day adoption and 2% error-rate targets at their positions |
| Assembler.GenerateRisks | frontend/src/components/PRDGenerator.tsx:125-130 | four risks; the first is `"Technical Risk: "` followed by the constraints, or by "Integration challenges" when they are empty |
| Assembler.RisksDetermineConstraints | frontend/src/components/PRDGenerator.tsx:125-130 | risks 1 to 3 never vary; equal risks iff equal constraints, or one empty and the other "Integration challenges" |
| Assembler.Assemble | frontend/src/components/PRDGenerator.tsx:52-70 | the record copies the five fields verbatim (`FieldsOf` gives them back), has no id, carries the given time and a non-empty title |
| Assembler.AssembleDeterministic | frontend/src/components/PRDGenerator.tsx:52-70 | two assemblies of the same fields differ at most in `createdAt`; every assembly is consistent, with each derived section equal to its generator applied to the record's own fields |
| Assembler.ConsistentIsAssembled | frontend/src/components/PRDGenerator.tsx:52-70 | conversely, a consistent record without an id is the assembly of its own fields at its own time |
| Assembler.DerivedSectionsDetermineFields | frontend/src/components/PRDGenerator.tsx:52-70 | the derived lists alone recover goals, audience and features, and recover the constraints up to the "Integration challenges" fallback |
| GeneratorState.FieldsFromForm | frontend/src/components/PRDGenerator.tsx:53-67 | each of the five fields the assembler uses is the form's value under the key of the same name, whatever the other keys hold |
| GeneratorState.EditAndAssemble | frontend/src/components/PRDGenerator.tsx:44-70 | editing a form key the assembler does not read leaves the assembled record unchanged; editing any of the five keys it reads sets exactly that field to the new value and leaves the other four as they were |
| GeneratorState.PrdGenerator.constructor | frontend/src/components/PRDGenerator.tsx:17-34 | the form starts with exactly the thirteen keys, all empty; nothing is generated and the flag is down |
| GeneratorState.PrdGenerator.HandleInputChange | frontend/src/components/PRDGenerator.tsx:44-46 | sets `field` to `value`, adds no key but `field`, and leaves every other key unchanged; all thirteen form keys stay present |
| GeneratorState.PrdGenerator.GeneratePrd | frontend/src/components/PRDGenerator.tsx:48-74 | the generated record is the assembly of the current form fields at the given time; the flag ends down; the form is not touched |
| PrdSchema.CastString | backend/models/PRD.js:10-14 | an absent or null optional string path is unset, a string is kept as it is, and any other value is a cast error |
| PrdSchema.Valid | backend/models/PRD.js:4-9 | the schema's `required` flags: a stored document has a non-empty `userId` and a non-empty `title`; `PrdSchema.NewDocument` builds only valid documents |
| PrdSchema.Strings | backend/models/PRD.js:15-20 | a list casts to `[String]` iff every item is a string, and then item by item |
| PrdSchema.StringsRoundTrip | backend/models/PRD.js:15-20 | a list of strings casts back from its JSON form |
| PrdSchema.CastStringList | backend/models/PRD.js:15-20 | an absent list path becomes the empty list |
| PrdSchema.CastDate | backend/models/PRD.js:21 | an absent `createdAt` takes the default, the current time |
| PrdSchema.NewDocument | backend/models/PRD.js:3-22 | a built document is valid (non-empty `userId` and `title`), carries the given id, takes `userId` and `title` from the input, and has the current time when no `createdAt` is supplied |
| PrdSchema.Encode | backend/models/PRD.js:3-22 | a document's JSON form has exactly the schema's paths |
| PrdSchema.BuildsDocument | backend/models/PRD.js:3-22 | any input whose declared paths cast to a valid document's fields builds that document |
| PrdSchema.EncodeRoundTrip | backend/models/PRD.js:3-22 | every valid document is rebuilt from its JSON form, so the schema loses nothing it accepts |
| PrdSchema.UndeclaredPathsIgnored | backend/models/PRD.js:3-22 | keys outside the schema's paths do not affect the document |
| PrdSchema.RequiredPaths | backend/models/PRD.js:4-9 | without `userId`, or without a non-empty `title`, no document is built |
| PrdRoutes.Truthy | backend/routes/prdRoutes.js:12 | JavaScript truthiness as `!userId` tests it: `undefined`, `null`, `false`, `0` and `""` are falsy, every other string, number and array is truthy |
| PrdRoutes.Picked | backend/routes/prdRoutes.js:9-30 | the object given to the model holds exactly the body's keys among the thirteen destructured fields, with the body's values |
| PrdRoutes.CreateOutcome | backend/routes/prdRoutes.js:7-38 | the records after a create extend the records before by at most one; one is appended iff the reply is 201; the reply is one of 400 "Missing userId", 201 with a message (no id), or 500 |
| PrdRoutes.CreateErrors | backend/routes/prdRoutes.js:12-36 | a falsy or absent `userId` gives 400 and stores nothing; a refused write or a missing title stores nothing |
| PrdRoutes.CreateIgnoresOtherKeys | backend/routes/prdRoutes.js:9-30 | the outcome depends only on the thirteen destructured fields, so `createdAt`, `id` or any other key is dropped; a stored record has the server's time and the next id |
| PrdRoutes.OwnedBy | backend/routes/prdRoutes.js:43 | the owner's list holds exactly the stored records whose `userId` is the owner |
| PrdRoutes.OwnedByAppend | backend/routes/prdRoutes.js:32-43 | appending a record extends exactly its owner's list, by that record |
| PrdRoutes.CreateThenList | backend/routes/prdRoutes.js:32-43 | creates keep ids unique and every record schema-valid; after a 201 the owner's list gains the new record, whose owner is the body's `userId`, and every other list is unchanged; after a failure no list changes |
| PrdRoutes.ClientBody | frontend/src/components/PRDGenerator.tsx:147 | the body a client posts for a generated record holds all thirteen fields the route reads |
| PrdRoutes.AssembledPrdIsStored | backend/models/PRD.js:4-21 | every assembled record posted with a non-empty owner passes the schema, since its title is never empty; it is stored with all its content, with the server's time in place of the client's |
| PrdRoutes.PrdStore.constructor | backend/models/PRD.js:24 | the PRD collection starts empty |
| PrdRoutes.PrdStore.Create | backend/routes/prdRoutes.js:7-38 | reply and new records are those of `CreateOutcome` on the old records; the store invariant (unique ids, valid records) is kept |
| PrdRoutes.PrdStore.ListByOwner | backend/routes/prdRoutes.js:41-48 | the owner's stored records as a multiset, in no promised order; an owner without records gets an empty list; 500 "Error fetching PRDs" when the database cannot be read |
| Templates.Catalog | frontend/src/components/Templates.tsx:11-177 | the catalog has six entries |
| Templates.CatalogIdsAndCategories | frontend/src/components/Templates.tsx:11-177 | ids are pairwise distinct; every category is in the closed set of six; each category is used by exactly one entry |
| Templates.SeedFields | frontend/src/components/Templates.tsx:17-34 | a seed supplies exactly the ten seed keys |
| Templates.SeedCoversForm | frontend/src/components/Templates.tsx:17-34 | the seed keys are form keys, and cover all of them except `targetAudience`, `goals` and `constraints`; of the assembler's five inputs a seed fills only the problem statement and the features |
| Templates.CatalogSeedsFilled | frontend/src/components/Templates.tsx:11-177 | every entry gives non-empty text for all ten seed fields |
| Templates.GetIcon | frontend/src/components/Templates.tsx:180-193 | the glyph singles out new-feature, bug-fix and mvp, the orange tint singles out enhancement, and every other category, integration and redesign included, gets the default icon |
| Templates.GetBorderColor | frontend/src/components/Templates.tsx:195-207 | the olive border iff new-feature or mvp; the orange border iff enhancement; the primary border (bug-fix's, and the default) for every other category |
| Templates.CategoryLabel | frontend/src/components/Templates.tsx:258 | the label has the category's length and one hyphen fewer, if there was one |
| Templates.CategoryHasAtMostOneHyphen | frontend/src/components/Templates.tsx:16-153 | each of the six categories has at most one hyphen |
| Templates.CatalogLabelsHaveNoHyphen | frontend/src/components/Templates.tsx:258 | no displayed catalog label contains a hyphen |

## Left out

- Rendering: all JSX markup, `LandingPage`, `Login`, `Signup`, `App`, `DashboardContainer` and the output view. `getIcon` returns a glyph and tint tag instead of an element.
- `handleSave` (PRDGenerator.tsx:133-161) uses `fetch`, `localStorage` and `alert`. Only the body it posts is modelled (`PrdRoutes.ClientBody`), and the `createdAt` text in it is a parameter.
- The 2000 ms delay in `generatePRD` is not modelled. `GeneratePrd` covers the state before and after it.
- Template seeding through `useEffect` (PRDGenerator.tsx:36-42) is not modelled. The code does not parse: its parentheses are unbalanced, and it calls `template` as a function. `Templates.SeedCoversForm` states which form keys a seed would cover.
- Authentication (`backend/routes/auth.js`: password hashing, token signing) and the server wiring (`backend/server.js`, which mounts only the auth routes) are not modelled.
- Mongoose casting is simplified. Optional strings accept a JSON string or null. Lists accept an array of strings or null. `createdAt` accepts a millisecond number or null. Any other value fails the save with a 500. Mongoose's conversion of numbers and booleans to strings, of a single value to a one-element array, of date strings, and of `userId` to an ObjectId is not modelled. `userId` is a non-empty string.
- PrdSchema.CastDate: an explicit `null` for `createdAt` takes the default here, whereas Mongoose applies a default only to an undefined path and would keep the null. `POST /` never passes `createdAt` to the model, so no modelled request reaches this case.
- The 500 reply of `POST /` also carries `err.message`. `Response` keeps only the status and `message`.
- Database failures are modelled only as the `writable` and `readable` parameters. Concurrent requests are not modelled.
- The order in which `find` returns records is not modelled.
- JavaScript `NaN` and nested JSON objects as body values are not modelled.
- The identifier the database assigns is modelled as the record's position in the store. This keeps identifiers unique.
