# Portfolio content layer in Dafny

A model of the logic behind a personal portfolio site built with Next.js. The
site shows one content document: personal information, skills, experience,
education, projects and a gallery. An owner edits that document in an admin
dashboard. The document is kept in a remote database row and cached in the
browser's local storage. The site also has two API routes. One stores
uploaded images on disk. The other forwards contact-form messages to an
e-mail provider.

The model covers:

- `portfolio_data.dfy` (`PortfolioData`): the document types, the default
  document, `mergeWithDefaults` (a partial document completed from the
  defaults), and the cache slot as a class. It also covers the cache read and
  write, the remote fetch and save, and the storage key of an image upload.
  Every remote answer is an input value.
- `editor.dfy` (`Editor`): the dashboard's edits as functions from the
  previous document to the next one. It also covers the comma-separated tag
  field, the avatar initials, and a `Dashboard` class. That class holds the
  document and the `loading`, `saving` and `saved` flags, and sequences
  mounting, saving, resetting, logging out and image uploads.
- `auth.dfy` (`Auth`): the session flag, one key of local storage, as a
  class with set, remove and read.
- `upload_route.dfy` (`UploadRoute`): the `kind` sanitisation, the extension
  taken by Node's `path.extname` (posix), the stored file name and the
  returned URL.
- `contact_route.dfy` (`ContactRoute`): the required-field check, the e-mail
  pattern, the branch taken when no provider is configured, and the mapping
  from provider errors to messages.
- `text.dfy` (`Text`) and `wrappers.dfy` (`Wrappers`): the JavaScript string
  built-ins the code relies on (`trim` and `\s`, `split`, `join`,
  `toLowerCase`, `includes`, decimal rendering) and `Option`.

Clocks, random suffixes, UUIDs, `confirm`, the environment variables and the
answers of the database, the storage bucket, the filesystem and the mail
provider are parameters.

Two facts about the code shape the document types:

- Items inside the lists are not merged with defaults. `mergeWithDefaults`
  copies a supplied list wholesale, so list items keep `Option` fields, and
  only a project's `imageUrl` is backfilled. `Complete(d)` therefore means
  "every project has an image URL". It does not mean "every field at every
  level is present".
- `Experience` has no `tags` field (app/lib/portfolio-data.ts:30-35).

## Model

| member | source | states |
|---|---|---|
| PortfolioData.DefaultComplete | app/lib/portfolio-data.ts:67-164 | the default document is complete: every default project has an image URL |
| PortfolioData.MergeSocial | app/lib/portfolio-data.ts:176-179 | each `social` key is the supplied value when that key is supplied, else the default for that key, even when other keys are supplied |
| PortfolioData.MergeStats | app/lib/portfolio-data.ts:180-183 | each `stats` key is the supplied value when that key is supplied, else that key's default |
| PortfolioData.MergePersonalInfo | app/lib/portfolio-data.ts:173-184 | every `personalInfo` scalar is the supplied value or the default; `social` and `stats` are merged key by key |
| PortfolioData.WithImageUrls | app/lib/portfolio-data.ts:188-191 | length and order kept; every project gets an image URL; a present one is kept with all other fields; a missing one becomes `""` |
| PortfolioData.Merge | app/lib/portfolio-data.ts:169-194 | the result is complete; each list is the supplied list when present, else the default list, never combined; projects are backfilled; per-key precedence for `personalInfo`, `social` and `stats` |
| PortfolioData.MergeOfComplete | app/lib/portfolio-data.ts:169-194 | merging the stored form of a complete document returns that document |
| PortfolioData.MergeIdempotent | app/lib/portfolio-data.ts:169-194 | merging a merge result again changes nothing |
| PortfolioData.MergeOfEmpty | app/lib/portfolio-data.ts:169-194 | an empty partial merges to the default document |
| PortfolioData.ReadAfterSave | app/lib/portfolio-data.ts:197-217 | reading the slot after saving a complete document returns that document |
| PortfolioData.ReadSlot | app/lib/portfolio-data.ts:197-210 | what the cache read returns: always a complete document; the default document when there is no window or nothing stored, and otherwise the stored partial merged over the defaults |
| PortfolioData.GetPortfolioData | app/lib/portfolio-data.ts:197-210 | returns the default document with no window or an absent or unparsable slot, else the merge of the stored partial; the result is complete |
| PortfolioData.SavePortfolioData | app/lib/portfolio-data.ts:213-217 | overwrites the slot with the document in a browser; changes nothing without a window |
| PortfolioData.FetchPortfolio | app/lib/portfolio-data.ts:224-249 | on error, returns the cache read and leaves the cache alone; on a row with data, returns its merge and writes exactly that to the cache; on a row without data, returns the default and does not write |
| PortfolioData.SavePortfolioToRemote | app/lib/portfolio-data.ts:252-274 | returns true exactly when the upsert succeeded; the cache is overwritten with the document only then (with a cache write that never throws) |
| PortfolioData.FileExtension | app/lib/portfolio-data.ts:293 | the lower-cased text after the last dot, the whole name when it has no dot, `"png"` only when that text is empty; never contains a dot |
| PortfolioData.StorageKey | app/lib/portfolio-data.ts:294 | the key starts with `<folder>/`, the decimal `Date.now()`, `-` and the random suffix, ends with `.` and the file's extension, and has nothing in between |
| PortfolioData.StorageKeySuffixInjective | app/lib/portfolio-data.ts:294 | two keys for the same file, folder and millisecond are equal only when their random suffixes are equal |
| PortfolioData.UploadImage | app/lib/portfolio-data.ts:277-325 | nothing is uploaded when the URL or key is missing; otherwise the key is `folder/millis-suffix.ext`, and a URL is returned exactly when the bucket accepts |
| Editor.RemoveAt | app/dashboard/page.tsx:216-221 | the filter by position removes exactly the element at the index and keeps the rest in order; an index out of range changes nothing |
| Editor.UpdatePersonalInfo | app/dashboard/page.tsx:172-177 | exactly the named field changes; the other fields, `social`, `stats` and all lists are unchanged |
| Editor.UpdateSocial | app/dashboard/page.tsx:179-187 | exactly the named `social` key changes; everything else is unchanged |
| Editor.UpdateStats | app/dashboard/page.tsx:189-197 | exactly the named `stats` key changes; everything else is unchanged |
| Editor.ApplySkillUpdate | app/dashboard/page.tsx:207-214 | sets the named skill field and keeps the other |
| Editor.AddSkill | app/dashboard/page.tsx:200-205 | appends the template skill; the old skills form an unchanged prefix; nothing else changes |
| Editor.UpdateSkill | app/dashboard/page.tsx:207-214 | length kept; only the skill at the index changes, by the named field; out of range nothing changes |
| Editor.RemoveSkill | app/dashboard/page.tsx:216-221 | removes exactly the skill at the index; out of range the document is unchanged |
| Editor.SetExperience | app/dashboard/page.tsx:234-241 | the named field takes the value; the other fields are unchanged |
| Editor.AddExperience | app/dashboard/page.tsx:224-232 | appends the template entry; the old entries form an unchanged prefix |
| Editor.UpdateExperience | app/dashboard/page.tsx:234-241 | length kept; only the entry at the index changes; out of range nothing changes |
| Editor.RemoveExperience | app/dashboard/page.tsx:243-248 | removes exactly the entry at the index; out of range the document is unchanged |
| Editor.SetEducation | app/dashboard/page.tsx:261-268 | the named field takes the value; the other fields are unchanged |
| Editor.AddEducation | app/dashboard/page.tsx:251-259 | appends the template entry; the old entries form an unchanged prefix |
| Editor.UpdateEducation | app/dashboard/page.tsx:261-268 | length kept; only the entry at the index changes; out of range nothing changes |
| Editor.RemoveEducation | app/dashboard/page.tsx:270-275 | removes exactly the entry at the index; out of range the document is unchanged |
| Editor.ApplyProjectUpdate | app/dashboard/page.tsx:288-295 | a text update sets that field and keeps the others and the tags; a tags update sets the tags and keeps every text field |
| Editor.AddProject | app/dashboard/page.tsx:278-286 | appends the template project; the old projects form an unchanged prefix; completeness is kept |
| Editor.UpdateProject | app/dashboard/page.tsx:288-295 | length kept; only the project at the index changes; completeness is kept |
| Editor.RemoveProject | app/dashboard/page.tsx:297-302 | removes exactly the project at the index; out of range nothing changes; completeness is kept |
| Editor.SetGallery | app/dashboard/page.tsx:315-326 | the named field takes the value; the other fields are unchanged |
| Editor.AddGalleryItem | app/dashboard/page.tsx:305-313 | appends the template item; the old items form an unchanged prefix |
| Editor.UpdateGalleryItem | app/dashboard/page.tsx:315-326 | length kept; only the item at the index changes; out of range nothing changes |
| Editor.RemoveGalleryItem | app/dashboard/page.tsx:328-333 | removes exactly the item at the index; out of range the document is unchanged |
| Editor.RemoveUndoesAdd | app/dashboard/page.tsx:200-333 | for each of the five lists, removing the item just added restores the document |
| Editor.TrimAll | app/dashboard/page.tsx:870 | `map(t => t.trim())`: same length, and each piece is the trimmed piece at the same position |
| Editor.KeepNonEmpty | app/dashboard/page.tsx:870 | `filter(Boolean)` keeps only non-empty strings taken from the input, and keeps an input without empties whole |
| Editor.KeepNonEmptyCons | app/dashboard/page.tsx:870 | one step of the filter: an empty head is dropped, any other head is kept in front of the filtered rest |
| Editor.KeepNonEmptyAppend | app/dashboard/page.tsx:870 | filtering a concatenation is the concatenation of the filtered halves, so order is kept and no non-empty string is dropped |
| Editor.ParseTags | app/dashboard/page.tsx:866-870 | every parsed tag is non-empty, has no white space at either end and contains no comma |
| Editor.ParseTagsAppend | app/dashboard/page.tsx:870 | a comma splits the field: the tags of `a,b` are the tags of `a` followed by the tags of `b` |
| Editor.ParseTagsWord | app/dashboard/page.tsx:870 | a comma-free field gives its trimmed text as the one tag, or no tag when it is blank; with the row above this fixes every result |
| Editor.TagsRoundTrip | app/dashboard/page.tsx:865-870 | showing clean tags joined by `", "` and parsing the field back gives the same tags in the same order |
| Editor.Initials | app/dashboard/page.tsx:345-348 | the initials are exactly the first character of each space-separated word, in order, against the reference definition `WordStarts` |
| Editor.InitialsOfSplit | app/dashboard/page.tsx:345-348 | the first characters of the split pieces, joined, equal the word starts of the name |
| Editor.UploadedFileUrl | app/dashboard/page.tsx:352-358 | a URL is returned exactly when storage is configured and accepts the file with a non-empty URL, and that URL is the storage's public URL; otherwise the helper throws |
| Editor.Dashboard.constructor | app/dashboard/page.tsx:113-119 | starts with the default document, loading, not saving, not saved |
| Editor.Dashboard.Mount | app/dashboard/page.tsx:121-140 | unauthenticated: redirect and change nothing; otherwise the document is the fetch result (with its cache effects) and loading ends |
| Editor.Dashboard.HandleSave | app/dashboard/page.tsx:142-157 | whether the remote save succeeded or not, the cache holds the document afterwards and reads back as it; `saved` is set and `saving` cleared |
| Editor.Dashboard.HandleLogout | app/dashboard/page.tsx:159-162 | the session is no longer authenticated; in a browser only the session key is removed, and without a window storage is unchanged |
| Editor.Dashboard.HandleReset | app/dashboard/page.tsx:164-169 | confirmed: the document and the cache both become the default document; otherwise nothing changes |
| Editor.Dashboard.HandleAvatarUpload | app/dashboard/page.tsx:360-369 | with a returned URL only the avatar URL changes; with no file or a failed upload the document is unchanged |
| Editor.Dashboard.HandleProjectImageUpload | app/dashboard/page.tsx:371-383 | with a returned URL only the image URL of that project changes; otherwise the document is unchanged |
| Editor.Dashboard.HandleGalleryImageUpload | app/dashboard/page.tsx:385-397 | with a returned URL only the image URL of that gallery item changes; otherwise the document is unchanged |
| Text.Trim | app/dashboard/page.tsx:870 | the result is the slice of the input left after dropping all white space at the start and at the end, and it neither starts nor ends with white space |
| Text.TrimFixedPoint | app/dashboard/page.tsx:870 | trimming leaves a string unchanged exactly when it has no white space at either end |
| Text.Split | app/dashboard/page.tsx:870 | the split has at least one piece and no piece contains the separator |
| Text.JoinSplit | app/dashboard/page.tsx:865-870 | joining the pieces of a split with the separator gives back the string |
| Text.SplitJoin | app/dashboard/page.tsx:865-870 | splitting a join gives back the pieces when none contains the separator |
| Text.SplitConcat | app/dashboard/page.tsx:870 | splitting `a + sep + b` gives the pieces of `a` followed by the pieces of `b` |
| Text.SplitLast | app/lib/portfolio-data.ts:293 | the last piece of a split is the text after the last separator, or the whole string when there is none |
| Text.LowerChar | app/api/upload/route.ts:16 | an upper-case ASCII letter becomes its lower-case letter; any other character is unchanged |
| Text.Lower | app/api/upload/route.ts:16 | same length; each character is `LowerChar` of the input's character at that position, so A–Z become a–z and every other character is kept; no upper-case ASCII letter is left; a string without one is unchanged |
| Text.ContainsIsOccurrence | app/api/contact/route.ts:90-92 | `includes` holds exactly when the text occurs at some position of the string |
| Text.DecimalString | app/api/upload/route.ts:18 | `Date.now()` rendered in decimal: non-empty, digits only; a leading `0` means the string is exactly `"0"` and the number is 0 |
| Text.DecimalRoundTrip | app/api/upload/route.ts:18 | the decimal rendering of the timestamp reads back as the same number |
| Auth.AuthStore.SetAuthToken | app/lib/auth.ts:5-9 | in a browser the key holds the marker, so the session is authenticated; no other key changes; with no window nothing changes |
| Auth.AuthStore.RemoveAuthToken | app/lib/auth.ts:11-15 | the key is gone, so the session is not authenticated; no other key changes |
| Auth.AuthStore.IsAuthenticated | app/lib/auth.ts:17-22 | true exactly when there is a window and the key holds exactly the marker value |
| Auth.SetIsIdempotent | app/lib/auth.ts:5-9 | setting twice leaves the store as setting once |
| Auth.RemoveIsIdempotent | app/lib/auth.ts:11-15 | removing twice leaves the store as removing once |
| UploadRoute.StripDisallowed | app/api/upload/route.ts:16 | only ASCII letters, digits, `-` and `_` remain; every such character of the input survives, and nothing else appears |
| UploadRoute.SafeKind | app/api/upload/route.ts:10-16 | never empty; made only of `a-z`, `0-9`, `-` and `_`; `"generic"` when the tag is absent or empty or has no letter, digit, `-` or `_`; otherwise the lower-cased filtered tag |
| UploadRoute.StripDisallowedAppend | app/api/upload/route.ts:16 | the replacement works character by character: stripping a concatenation strips each half |
| UploadRoute.StripDisallowedSingle | app/api/upload/route.ts:16 | a single character is kept exactly when it is an ASCII letter, digit, `-` or `_`; with the row above this fixes every result |
| UploadRoute.StripDisallowedCons | app/api/upload/route.ts:16 | one step of the replacement: the first character is kept in front of the stripped rest exactly when it is a kind character |
| UploadRoute.GenericIsSafe | app/api/upload/route.ts:10-16 | the `"generic"` fallback is already safe and survives sanitising unchanged |
| UploadRoute.SafeKindKeeps | app/api/upload/route.ts:16 | every letter, digit, `-` or `_` of the tag appears in the safe kind, lower-cased |
| UploadRoute.SafeKindIdempotent | app/api/upload/route.ts:16 | sanitising a safe kind returns it unchanged |
| UploadRoute.ExtName | app/api/upload/route.ts:17 | the extension is a suffix of the base name, a dot followed by text with no dot and no slash; it is empty exactly when the base name has no dot, has its only dot in front, or is `..` |
| UploadRoute.ExtNameIgnoresTrailingSlash | app/api/upload/route.ts:17 | a trailing `/` does not change the extension |
| UploadRoute.ExtNameOfLastComponent | app/api/upload/route.ts:17 | only the last path component decides the extension |
| UploadRoute.ExtNameOfStemAndExtension | app/api/upload/route.ts:17 | `stem.ext` has extension `.ext`, and `stem.` has `.` |
| UploadRoute.ExtNameWithoutDot | app/api/upload/route.ts:17 | a name without a dot has no extension, so `.png` is used |
| UploadRoute.StoredFileName | app/api/upload/route.ts:17-18 | the stored name is exactly the decimal timestamp, `-` and the UUID, followed by the upload's extension or `.png` when it has none |
| UploadRoute.StoredFileKeepsExtension | app/api/upload/route.ts:17-18 | the stored name has the extension of the upload, or `.png` when the upload had none |
| UploadRoute.Post | app/api/upload/route.ts:6-30 | unreadable form: 500; missing file: 400 before anything else; failed write: 500; otherwise the URL is `/uploads/<safe kind>/<millis>-<uuid><ext>` |
| UploadRoute.UrlNamesStoredFile | app/api/upload/route.ts:16-26 | the URL path splits into `""`, `uploads`, the safe kind and the stored file name, so it names one file in one directory |
| ContactRoute.ShapeMatchesPattern | app/api/contact/route.ts:18 | an address with no white space, one `@` with text before it and a dot inside the domain matches the pattern |
| ContactRoute.PatternHasShape | app/api/contact/route.ts:18 | an address the pattern matches has that shape |
| ContactRoute.EmailShapeIsPattern | app/api/contact/route.ts:18 | the shape check accepts exactly the addresses the pattern matches |
| ContactRoute.ProviderErrorMessage | app/api/contact/route.ts:85-100 | `verify` wins, then `API key`, else the generic failure, also for a missing message |
| ContactRoute.Post | app/api/contact/route.ts:4-111 | malformed body: 500; a missing field: 400 first; a bad address: 400; no key: success with the note; then a provider error is a 500 with the mapped message and the provider's text as details, a thrown error a 500 with its message; success only for a valid request |
| ContactRoute.NoSendBeforeChecks | app/api/contact/route.ts:10-40 | the provider's answer matters only when the body is an object with `name`, `email`, `message` and `recipientEmail` all present, both addresses match the e-mail pattern and a key is configured |

## Left out

- JSON text, `JSON.parse` and `JSON.stringify`: the cache slot holds a structured partial document, `Corrupt` or nothing. A stored empty string counts as absent.
- Unknown extra keys in stored or remote data, which the object spread copies through, are not represented.
- JSON `null` in a `personalInfo` scalar, which the spread would copy through: scalars are present or absent only.
- Contact bodies are modelled as their four fields, each a string or missing. A `null` body or text that is not JSON throws and gives 500, which is `MalformedBody`. A number, string or array body gives 400 `Missing required fields`; that is a `ContactBody` with every field missing. Non-string field values, which the source would coerce to strings, are not represented.
- List fields in stored and remote data are assumed to be lists of objects. A `projects` value that is not an array, or a `null` project, makes the merge throw. In `fetchPortfolioFromSupabase` that throw is caught, and the cache read is returned without a write. `FetchPortfolio` does not model that path.
- Editor.Initials: takes the whole first character of each word. `charAt(0)` works on UTF-16 code units, so for a word starting with a character outside the Basic Multilingual Plane the source yields a lone surrogate.
- The directory the upload route writes to, `path.join(process.cwd(), "public", "uploads", safeKind)`, is not modelled; `UrlNamesStoredFile` is about the returned URL only. It names that directory because the same `safeKind` is used in both.
- Editor.UpdatePersonalInfo: takes one of the known field names, where the source accepts any string key and can add unknown keys.
- PortfolioData.FileExtension: lower-cases ASCII letters only, where `toLowerCase` also maps other scripts.
- The `prev.gallery ?? []` guard in the gallery edits: every document the dashboard holds comes from the merge or the defaults, whose gallery is always a list.
- The cache write is assumed never to throw. A browser's `localStorage.setItem` can throw, for example when the quota is exceeded. Inside the `try` of the two remote functions that throw is caught:
  - PortfolioData.FetchPortfolio: the source then returns the cache read, not the merged remote document, after the row with data has been read.
  - PortfolioData.SavePortfolioToRemote: the source then returns `false` even though the upsert succeeded. The model returns true exactly when the upsert succeeded.
  - Editor.Dashboard.HandleSave: a throw from the fallback cache write escapes the handler, and `saving` stays set. The model always completes the save.
- The `catch` around `loadData`: under the never-throwing cache write above, the remote fetch never throws, so it cannot fire in the model.
- Editor.UpdateSkill and Editor.ApplySkillUpdate: the skill level is an integer. The source stores `Number(e.target.value)` from a number input, so a typed `12.5` is kept as a fraction. `min` and `max` do not limit typed input, so `250` or a negative level is stored as is. `NaN` from an empty field is not represented either.
- The rich-text editor, the page markup, navigation, `alert`, `console`, the `setTimeout` that clears `saved`, and async interleaving: each handler is one sequential step.
- The Supabase client (app/lib/supabase.ts), the Resend client, `mkdir` and `writeFile`: their results are inputs.
- The contact e-mail's HTML body.
- `Date.now()`, `Math.random()` and `crypto.randomUUID()`: they are parameters, and no uniqueness is claimed.
- app/page.tsx, app/login/page.tsx and app/layout.tsx are not part of this model.
