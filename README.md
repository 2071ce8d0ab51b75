# Portfolio creator — a Dafny model

A model of the portfolio builder's core: the server registry and the client
editor's state. The registry is a project → section → item hierarchy, held by
its action handlers over three tables. The client editor converts item
payloads to form fields and back. The model also covers:

- the content projection, which turns a project's sections into
  `PortfolioData`, and from that into the versioned public document;
- the dashboard summary;
- the year and month option tables;
- the older portfolio API, whose invariant is "at most one default portfolio
  per user".

The tables are Dafny maps from id to row. Handlers that change them are
methods of a class (`Registry.Store`, `Legacy.LegacyStore`). Each method
states the whole new state and the error it raises, in the order the source
checks. Validity predicates (`TablesValid`, `AtMostOneDefault`) are
preserved by every handler. The caller, the clock (`now`) and the ids
`randomUUID` would draw are parameters.

The editor store `CreatorStore.PortfolioCreatorStore` is a class whose
methods update the fields the source updates. An action's answer (the saved
project, the saved item) is a method parameter.

Modules, one per source concern:

| file | module | source |
|---|---|---|
| wrappers.dfy | Wrappers | `Option`, `Result` |
| text.dfy | Text | JavaScript `trim`, `split`, `join`, `toLowerCase`, `String(n)` |
| content.dfy | Content | row and DTO shapes, item payloads, section keys |
| helpers.dfy | Helpers | src/modules/portfolio-creator/helpers.ts |
| public_output.dfy | PublicOutput | src/modules/portfolio-creator/publicOutput.ts |
| forms.dfy | Forms | the pure converters of src/modules/portfolio-creator/store.ts |
| store.dfy | CreatorStore | `PortfolioCreatorStore` in src/modules/portfolio-creator/store.ts |
| summary.dfy | Summary | src/dashboard/summary.schema.ts |
| constraints.dfy | Constraints | src/modules/portfolio-creator/constraints.ts |
| auth.dfy | Auth | `requireUser` and the action error codes |
| portfolio_creator.dfy | PortfolioCreator | the pure parts of src/actions/portfolioCreator.ts |
| registry.dfy | Registry | the handlers of src/actions/portfolioCreator.ts |
| legacy.dfy | Legacy | src/actions/index.ts |

Points where the model follows the code closely:

- **Input schema first.** Each handler's input schema is checked before
  `requireUser`, since Astro validates input before the handler runs. A
  rejected input is `BadRequest`.
- **A taken id makes `createPortfolio`'s insert fail.** The handler inserts
  under a caller-supplied id when one is given. It has no check of its own and
  raises no action error for a taken id: the database rejects the insert and
  the error propagates unhandled. The model names this outcome `InsertFailed`.
  The earlier reset of the user's defaults has already been written, because
  the statements are not in a transaction.
- **`saveProject`'s update path.** It writes `createdAt` as well as
  `updatedAt`, so an updated work project's creation time becomes the update
  time. Fields that are not given are left as stored, because an `undefined`
  column is skipped by the update.
- **`reorderSections` and `reorderItems`** check membership only. Repeated ids
  are accepted, and the last listing of an id wins. Unlisted rows keep their
  order.

## Model

| member | source | states |
|---|---|---|
| Auth.RequireUser | src/actions/index.ts:6-18 | succeeds exactly when there is a user and returns it; otherwise UNAUTHORIZED |
| Text.Trim | src/modules/portfolio-creator/helpers.ts:68-71 | `trim` leaves no whitespace at either end and never lengthens the string |
| Text.TrimCut | src/modules/portfolio-creator/helpers.ts:68-71 | the trim is the slice between a whitespace-only prefix and a whitespace-only suffix, with non-whitespace ends when non-empty |
| Text.TrimCutsEdges | src/modules/portfolio-creator/helpers.ts:68-71 | `trim` removes whitespace only, and only at the two ends: the result is a slice of the input with whitespace outside it |
| Text.TrimUnique | src/modules/portfolio-creator/helpers.ts:68-71 | a trimmed slice of the input with only whitespace outside it is the trim, so `Trim` is fully characterised |
| Text.TrimIdempotent | src/modules/portfolio-creator/helpers.ts:68-71 | trimming twice is trimming once |
| Text.TrimmedIsFixed | src/modules/portfolio-creator/publicOutput.ts:21 | a string with no whitespace at either end is its own trim |
| Text.Split | src/modules/portfolio-creator/store.ts:53-54 | `split` on one character gives at least one part, and no part holds the separator |
| Text.SplitJoin | src/modules/portfolio-creator/store.ts:72 | joining separator-free parts and splitting again gives the parts back |
| Text.JoinSplit | src/modules/portfolio-creator/store.ts:54 | splitting and joining again gives the string back |
| Text.DropEmpty | src/modules/portfolio-creator/store.ts:56 | `filter(Boolean)`: a string is in the result exactly when it is a non-empty entry of the input |
| Text.DropEmptyAppend | src/modules/portfolio-creator/store.ts:56 | filtering a concatenation is concatenating the filtered parts, so kept entries keep their order |
| Text.TrimAll | src/modules/portfolio-creator/store.ts:55 | the i-th entry becomes the trim of the i-th input, so it is trimmed; the length is kept |
| Text.TrimAllAppend | src/modules/portfolio-creator/store.ts:55 | the entries are trimmed one by one: trimming two lists joined gives the two results joined |
| Text.Lower | src/actions/portfolioCreator.ts:100 | ASCII `toLowerCase`: same length, each character lowered |
| Text.NatToString | src/modules/portfolio-creator/helpers.ts:230 | `String(n)` is a non-empty run of digits, one digit exactly below 10 |
| Text.NatToStringInjective | src/modules/portfolio-creator/helpers.ts:230 | different years print differently |
| Helpers.IsProTemplate | src/modules/portfolio-creator/helpers.ts:13-21 | true exactly for "minimal" and "story", both known template keys; unknown keys are not pro |
| Helpers.NormalizeText | src/modules/portfolio-creator/helpers.ts:68-71 | a present value gives its trim, a missing one ""; either way the result is trimmed and no longer than the input |
| Helpers.NormalizeTextIdempotent | src/modules/portfolio-creator/helpers.ts:68-71 | normalising normalised text changes nothing |
| Helpers.MonthLabel | src/modules/portfolio-creator/helpers.ts:217-220 | "" exactly for a missing value or one outside 1..12; otherwise the three-letter name of that month |
| Helpers.MonthYearLabel | src/modules/portfolio-creator/helpers.ts:230 | "Mon YYYY" with a valid month, "YYYY" without; never empty |
| Helpers.FormatRange | src/modules/portfolio-creator/helpers.ts:222-238 | end is "Present" whenever `isPresent` holds, whatever the end year; start is "" exactly without a start year; otherwise the month-year label |
| Helpers.CreateEmptyPortfolioData | src/modules/portfolio-creator/helpers.ts:176-209 | every collection is empty, and the skills block has three groups with no items |
| Helpers.EnabledSections | src/modules/portfolio-creator/helpers.ts:242 | only enabled sections of the input remain, never more than there were |
| Helpers.EnabledSectionsExactly | src/modules/portfolio-creator/helpers.ts:242 | a section is kept exactly when it is in the input and enabled |
| Helpers.EnabledSectionsAppend | src/modules/portfolio-creator/helpers.ts:242 | filtering a concatenation is concatenating the filtered parts, so kept sections keep their order |
| Helpers.GetSectionItems | src/modules/portfolio-creator/helpers.ts:211-213 | no section with the key gives no items |
| Helpers.NormalizeArray | src/modules/portfolio-creator/helpers.ts:215 | a missing list gives none; otherwise a string is kept exactly when it is a non-empty entry of the list |
| Helpers.SkillGroupOf | src/modules/portfolio-creator/helpers.ts:259-262 | the name is the trim of the stored name; the items are the stored items with the empty ones dropped (`DropEmpty`) |
| Helpers.ProfileOf | src/modules/portfolio-creator/helpers.ts:244-248 | each of the eight profile fields is copied as stored, untrimmed, and is "" when absent; the empty payload gives the empty profile |
| Helpers.SkillsOf | src/modules/portfolio-creator/helpers.ts:256-263 | a stored list gives one normalised group per stored group, in order; no list gives exactly the three default groups; every name is trimmed |
| Helpers.FeaturedProjectOf | src/modules/portfolio-creator/helpers.ts:265-271 | name, description and link are `NormalizeText` of the stored values (trimmed, "" when missing); bullets and tags are `NormalizeArray` of the stored lists, with no empty entry |
| Helpers.IsPresentOf | src/modules/portfolio-creator/helpers.ts:279 | true exactly when `isPresent` is true, or it is missing and `present` is true |
| Helpers.ExperienceOf | src/modules/portfolio-creator/helpers.ts:273-296 | start and end come from the year/month range when a year is given ("Present" for an ongoing role), else from the trimmed raw text; role, company and location are `NormalizeText` of the stored values and bullets `NormalizeArray` |
| Helpers.EducationOf | src/modules/portfolio-creator/helpers.ts:298-320 | the same dates, without "Present"; degree, field, institution and grade are `NormalizeText` of the stored values |
| Helpers.CredentialOf | src/modules/portfolio-creator/helpers.ts:322-334 | each of the four fields is `NormalizeText` of the stored value: trimmed, and "" when missing |
| Helpers.TrimLinks | src/modules/portfolio-creator/helpers.ts:345-348 | the i-th link has the trimmed label and url of the i-th input link; the length is kept |
| Helpers.TrimLinksAppend | src/modules/portfolio-creator/helpers.ts:345-348 | the links are trimmed one by one: trimming two lists joined gives the two results joined |
| Helpers.KeepNonBlank | src/modules/portfolio-creator/helpers.ts:349 | a link is kept exactly when it is in the input and has a label or a url |
| Helpers.KeepNonBlankAppend | src/modules/portfolio-creator/helpers.ts:349 | filtering a concatenation is concatenating the filtered parts, so kept links keep their order |
| Helpers.NormalizeLinks | src/modules/portfolio-creator/helpers.ts:343-350 | the contact links are trimmed, and each has a label or a url |
| Helpers.NormalizeLinksExactly | src/modules/portfolio-creator/helpers.ts:343-350 | a link is kept exactly when it is the trimmed form of some input link and has a label or a url |
| Helpers.NormalizeLinksAppend | src/modules/portfolio-creator/helpers.ts:343-350 | the links are normalised one by one, so the kept links keep their order |
| Helpers.ContactOf | src/modules/portfolio-creator/helpers.ts:336-351 | the four text fields are `NormalizeText` of the stored values; a stored list gives `NormalizeLinks` of it (trimmed, non-blank links), no list gives none |
| Helpers.BuildPortfolioData | src/modules/portfolio-creator/helpers.ts:240-354 | the about text is trimmed, and every contact link is trimmed and has a label or a url |
| Helpers.BuildPortfolioDataShape | src/modules/portfolio-creator/helpers.ts:256-334 | each collection has one entry per item of its first enabled section, and every skill group name is trimmed |
| Helpers.EnabledSectionsIdempotent | src/modules/portfolio-creator/helpers.ts:242 | filtering to enabled sections twice is filtering once |
| Helpers.BuildIgnoresDisabledSections | src/modules/portfolio-creator/helpers.ts:240-242 | building from all sections equals building from the enabled ones |
| Helpers.NoEnabledSectionNoItems | src/modules/portfolio-creator/helpers.ts:211-213 | a key with no enabled section has no items to contribute |
| Helpers.DisabledSingletonContributesNothing | src/modules/portfolio-creator/helpers.ts:244-263 | with every section of a singleton key disabled or absent, that block gets the `createEmptyPortfolioData` value |
| Helpers.DisabledCollectionContributesNothing | src/modules/portfolio-creator/helpers.ts:265-334 | with every section of a collection key disabled or absent, that collection is empty |
| Helpers.FirstEnabledSectionSupplies | src/modules/portfolio-creator/helpers.ts:211-213 | the items used are those of the first enabled section with the key |
| Helpers.CollectionFollowsItems | src/modules/portfolio-creator/helpers.ts:265-296 | a collection has one entry per item of that section, in item order |
| Helpers.ContactLinksNonBlank | src/modules/portfolio-creator/helpers.ts:336-351 | every contact link has a label or a url, both trimmed |
| Helpers.DefaultSkillsKept | src/modules/portfolio-creator/helpers.ts:257 | normalising the three default groups leaves them as they are |
| PublicOutput.ToTemplateKey | src/modules/portfolio-creator/publicOutput.ts:9-26 | the trimmed key when it names a template, else "classic"; always a template key |
| PublicOutput.ToSectionKey | src/modules/portfolio-creator/publicOutput.ts:10-31 | a key exactly when the trimmed value is a public section key, and never "profile" |
| PublicOutput.StripLeadingSlashes | src/modules/portfolio-creator/publicOutput.ts:37 | the result does not start with a slash and keeps the last character |
| PublicOutput.NormalizeHref | src/modules/portfolio-creator/publicOutput.ts:33-38 | blank gives ""; a mailto/tel/http(s) value is kept as trimmed; anything else gets `https://` after its leading slashes are stripped; empty exactly for blank input |
| PublicOutput.NormalizeHrefShape | src/modules/portfolio-creator/publicOutput.ts:33-38 | a normalised href is trimmed and carries a scheme unless empty |
| PublicOutput.NormalizeHrefIdempotent | src/modules/portfolio-creator/publicOutput.ts:33-38 | normalising twice is normalising once |
| PublicOutput.CleanList | src/modules/portfolio-creator/publicOutput.ts:99-100 | every bullet or tag kept is non-empty and trimmed |
| PublicOutput.CleanListExactly | src/modules/portfolio-creator/publicOutput.ts:99-100 | a string is kept exactly when it is the non-empty trim of some entry |
| PublicOutput.CleanListAppend | src/modules/portfolio-creator/publicOutput.ts:99-100 | cleaning a concatenation is concatenating the cleaned parts, so kept entries keep their order |
| PublicOutput.CleanListIdempotent | src/modules/portfolio-creator/publicOutput.ts:99-100 | cleaning twice is cleaning once |
| PublicOutput.PublicLinkOf | src/modules/portfolio-creator/publicOutput.ts:65-71 | the href is the normalised url, non-empty exactly when the trimmed url is; the label falls back to the url when blank; a non-empty href has a non-empty label |
| PublicOutput.PublicFormsOf | src/modules/portfolio-creator/publicOutput.ts:64-71 | one public link per contact link, the i-th being the public form of the i-th |
| PublicOutput.PublicFormsOfAppend | src/modules/portfolio-creator/publicOutput.ts:64-71 | the links are mapped one by one: mapping two lists joined gives the two results joined |
| PublicOutput.KeepWithHref | src/modules/portfolio-creator/publicOutput.ts:72 | a public link is kept exactly when it is in the input and has a non-empty href; never more links than given |
| PublicOutput.KeepWithHrefAppend | src/modules/portfolio-creator/publicOutput.ts:72 | filtering two lists joined gives the two filtered lists joined, so kept links keep their order |
| PublicOutput.PublicLinks | src/modules/portfolio-creator/publicOutput.ts:64-72 | every output link has a non-empty href and label, and every link with a non-blank url is kept |
| PublicOutput.PublicLinksExactly | src/modules/portfolio-creator/publicOutput.ts:64-72 | a link is in the output exactly when it is the public form of some input link and its href is non-empty |
| PublicOutput.PublicLinksAppend | src/modules/portfolio-creator/publicOutput.ts:64-72 | mapping and filtering a concatenation is doing it to each part, so kept links keep their order |
| PublicOutput.PublicSkillGroupOf | src/modules/portfolio-creator/publicOutput.ts:111-114 | the name is the trim of the stored name; the items are `CleanList` of the stored items, each non-empty, trimmed and the trim of some stored item |
| PublicOutput.PublicSkills | src/modules/portfolio-creator/publicOutput.ts:110-115 | each kept group has a name or an item; names are trimmed and no item is empty |
| PublicOutput.PublicSkillsExactly | src/modules/portfolio-creator/publicOutput.ts:110-115 | a group is in the output exactly when it is the cleaned form of some stored group and has a name or an item |
| PublicOutput.PublicSkillsAppend | src/modules/portfolio-creator/publicOutput.ts:110-115 | cleaning a concatenation is concatenating the cleaned parts, so kept groups keep their order |
| PublicOutput.VisibleSections | src/modules/portfolio-creator/publicOutput.ts:59-62 | every visible key is a public section key |
| PublicOutput.VisibleSectionsExactly | src/modules/portfolio-creator/publicOutput.ts:59-62 | a key is visible exactly when some enabled section carries it (up to whitespace) and it is public |
| PublicOutput.VisibleSectionsAppend | src/modules/portfolio-creator/publicOutput.ts:59-62 | sections are read one by one, so visible keys keep the order of their sections |
| PublicOutput.ProfileNeverVisible | src/modules/portfolio-creator/publicOutput.ts:10-19 | "profile" never appears among the visible sections |
| PublicOutput.Prefer | src/modules/portfolio-creator/publicOutput.ts:84-86 | the result is trimmed; the first value's trim unless it is blank; empty exactly when both are blank |
| PublicOutput.PublicSectionsOf | src/modules/portfolio-creator/publicOutput.ts:93-136 | the about text is the trim of the projected one; the i-th project, experience, education, certification and achievement entry is the public form of the i-th projected entry; skills are `PublicSkills` of the projected groups, each shown with a name or an item |
| PublicOutput.PublicContactOf | src/modules/portfolio-creator/publicOutput.ts:83-92 | email and website prefer the trimmed profile value and fall back to the contact one; phone, github, linkedin and the call-to-action texts are trimmed; links are `PublicLinks` of the contact links, each with an href and a label |
| PublicOutput.PublicProjectOf | src/modules/portfolio-creator/publicOutput.ts:95-101 | name and description are trimmed, the link goes through `NormalizeHref`, bullets and tags through `CleanList` (non-empty and trimmed) |
| PublicOutput.PublicExperienceOf | src/modules/portfolio-creator/publicOutput.ts:102-109 | role, company, location, start and end are trimmed; bullets go through `CleanList` (non-empty and trimmed) |
| PublicOutput.PublicEducationOf | src/modules/portfolio-creator/publicOutput.ts:116-123 | all six fields are trimmed |
| PublicOutput.PublicCredentialOf | src/modules/portfolio-creator/publicOutput.ts:124-135 | title, issuer, year and note are trimmed (certifications and achievements alike) |
| PublicOutput.BuildPortfolioPublicData | src/modules/portfolio-creator/publicOutput.ts:52-147 | version "1.0"; the template is `ToTemplateKey` of the project theme, so always a known one; the owner holds the trimmed profile and about fields; contact, sections and visible keys are the blocks built from the projection of the same sections; meta has the trimmed title and slug and copies visibility and timestamps |
| PublicOutput.EmailFallsBackToContact | src/modules/portfolio-creator/publicOutput.ts:84-86 | the document's email is the profile email unless it is blank, then the contact section's |
| PublicOutput.PublicLinksNonBlank | src/modules/portfolio-creator/publicOutput.ts:64-72 | every link of the document has a non-empty href and label |
| PublicOutput.PublicSectionsNoBlank | src/modules/portfolio-creator/publicOutput.ts:99-115 | a sections block built from any projection has no empty bullet, tag or skill item, and every skill group has a name or an item |
| PublicOutput.NoBlankEntries | src/modules/portfolio-creator/publicOutput.ts:99-115 | no bullet, tag or skill item of the document is empty, and every skill group has a name or an item |
| Forms.CleanParts | src/modules/portfolio-creator/store.ts:53-56 | the parts are non-empty, trimmed and free of the separator |
| Forms.ToLines | src/modules/portfolio-creator/store.ts:50-59 | text gives trimmed, non-empty, newline-free lines; an array gives `DropEmpty` of it, i.e. exactly its non-empty entries in order; anything else gives none |
| Forms.ToTags | src/modules/portfolio-creator/store.ts:61-70 | the same with commas |
| Forms.FromLines | src/modules/portfolio-creator/store.ts:72 | "" for a missing or empty list |
| Forms.FromTags | src/modules/portfolio-creator/store.ts:73 | "" for a missing or empty list |
| Forms.LinesRoundTrip | src/modules/portfolio-creator/store.ts:50-72 | `toLines(fromLines(xs)) == xs` for non-empty, trimmed, newline-free entries |
| Forms.TagsRoundTrip | src/modules/portfolio-creator/store.ts:61-73 | `toTags(fromTags(xs)) == xs` for non-empty, trimmed, comma-free entries |
| Forms.LinkFromEntry | src/modules/portfolio-creator/store.ts:81-82 | label and url of a line are trimmed and free of the bar separator |
| Forms.ParseLinks | src/modules/portfolio-creator/store.ts:75-85 | no parsed link has both label and url empty; all are trimmed and free of the bar separator |
| Forms.FormatLinks | src/modules/portfolio-creator/store.ts:87-93 | "" for no links, and the text is trimmed |
| Forms.FormatLinesReadBack | src/modules/portfolio-creator/store.ts:87-90 | each link's line is non-empty, trimmed, newline-free and reads back as that link |
| Forms.LineRoundTrip | src/modules/portfolio-creator/store.ts:81-90 | the line of a formattable link is non-empty, trimmed, newline-free and reads back as the link |
| Forms.FormatLinksIsJoin | src/modules/portfolio-creator/store.ts:87-93 | formatting non-empty links is joining their lines, with nothing trimmed away |
| Forms.LinksRoundTrip | src/modules/portfolio-creator/store.ts:75-93 | `parseLinks(formatLinks(ls)) == ls` for trimmed, non-blank links free of bars and newlines |
| Forms.ParsedLinksNewlineFree | src/modules/portfolio-creator/store.ts:75-85 | no parsed link holds a newline |
| Forms.IsSingleSection | src/modules/portfolio-creator/store.ts:13 | true exactly for profile, about, skills and contact |
| Forms.FormGroupsOf | src/modules/portfolio-creator/store.ts:167-175 | one form group per stored group, each with a trimmed name |
| Forms.SkillGroupsOf | src/modules/portfolio-creator/store.ts:226-234 | one stored group per form group, each clean: a trimmed name and non-empty, trimmed, single-line items |
| Forms.SkillGroupsRoundTrip | src/modules/portfolio-creator/store.ts:167-234 | clean stored groups survive being opened in the form and saved again |
| Forms.ProfileSurvivesReopen | src/modules/portfolio-creator/store.ts:165-222 | saving a profile form, reopening it and saving again stores the same payload |
| Forms.AboutSurvivesReopen | src/modules/portfolio-creator/store.ts:166-225 | the same for the about text |
| Forms.SkillsSurviveReopen | src/modules/portfolio-creator/store.ts:167-234 | the same for skill groups |
| Forms.ContactSurvivesReopen | src/modules/portfolio-creator/store.ts:176-243 | the same for the contact block, links included |
| Forms.FeaturedProjectSurvivesReopen | src/modules/portfolio-creator/store.ts:183-252 | the same for a featured project, bullets and tags included |
| Forms.ExperienceSurvivesReopen | src/modules/portfolio-creator/store.ts:191-262 | the same for an experience entry |
| Forms.EducationSurvivesReopen | src/modules/portfolio-creator/store.ts:198-272 | the same for an education entry |
| Forms.CredentialSurvivesReopen | src/modules/portfolio-creator/store.ts:201-289 | the same for a certification or achievement |
| Forms.PayloadSurvivesReopen | src/modules/portfolio-creator/store.ts:164-290 | for every section key, save → reopen → save stores the first save's payload |
| CreatorStore.ReplaceWhere | src/modules/portfolio-creator/store.ts:407-409 | the length is kept; entries with the id become the new one and the others are kept |
| CreatorStore.RemoveWhere | src/modules/portfolio-creator/store.ts:581 | exactly the entries without the id remain; shorter exactly when some entry had it; unchanged when none did |
| CreatorStore.ReplaceWhereStable | src/modules/portfolio-creator/store.ts:407-409 | replacing twice is replacing once, and every entry keeps its id |
| CreatorStore.FindKey | src/modules/portfolio-creator/store.ts:599 | the position of the first section with the key, or none when no section has it |
| CreatorStore.FindKeyItems | src/modules/portfolio-creator/helpers.ts:211-213 | the found section's items are those `getSectionItems` reads |
| CreatorStore.OpenedData | src/modules/portfolio-creator/store.ts:599-601 | a single section's form opens on its first item's payload; any other opens empty |
| CreatorStore.SaveRequestFor | src/modules/portfolio-creator/store.ts:643-712 | a request exactly when a key, a loaded project with an id and its section exist. A single section updates its first item or creates one. A collection updates the edited item or creates one. The payload is `toPayload` of the form |
| CreatorStore.SavedItems | src/modules/portfolio-creator/store.ts:669-710 | a single section holds just the saved item; a collection replaces it in place when editing, else appends it |
| CreatorStore.SavedSingletonReopens | src/modules/portfolio-creator/store.ts:595-684 | after a single section is saved, reopening it shows the saved payload, and saving again stores the same |
| CreatorStore.SingleSectionUpdatesInPlace | src/modules/portfolio-creator/store.ts:656-670 | a single section that has an item saves into it rather than creating another |
| CreatorStore.Bumped | src/modules/portfolio-creator/store.ts:389-392 | the new cache-buster differs from the current one and is the clock's reading or one more |
| CreatorStore.PortfolioCreatorStore.constructor | src/modules/portfolio-creator/store.ts:16-43 | the initial field values; `previewBuster` starts at the clock |
| CreatorStore.PortfolioCreatorStore.IsTemplateLocked | src/modules/portfolio-creator/store.ts:367-369 | locked exactly for "minimal" or "story" on an unpaid plan |
| CreatorStore.PortfolioCreatorStore.SelectNewTemplate | src/modules/portfolio-creator/store.ts:371-378 | a locked template shows the paywall and leaves the theme; otherwise the paywall clears and the new project takes the theme; no other field of the store changes |
| CreatorStore.PortfolioCreatorStore.SelectProjectTemplate | src/modules/portfolio-creator/store.ts:380-387 | the same for the open project's settings; no other field of the store changes |
| CreatorStore.PortfolioCreatorStore.BumpPreview | src/modules/portfolio-creator/store.ts:389-392 | `previewBuster` becomes `Bumped` of its old value, so it always changes whatever the clock reads; nothing else does |
| CreatorStore.PortfolioCreatorStore.ShowPaywall | src/modules/portfolio-creator/store.ts:518-520 | the answer's message, or the stock paywall text when it is empty; no other field of the store changes |
| CreatorStore.PortfolioCreatorStore.UpdateProjectInList | src/modules/portfolio-creator/store.ts:407-409 | the list becomes the id-wise replacement; no other field of the store changes |
| CreatorStore.PortfolioCreatorStore.ApplyProjectSaved | src/modules/portfolio-creator/store.ts:505-535 | the paywall message is cleared; the open project, the list and the settings form take the saved row, and the preview changes; no other field of the store changes |
| CreatorStore.PortfolioCreatorStore.ApplyProjectDeleted | src/modules/portfolio-creator/store.ts:581-586 | exactly the entries with that id leave the list; the open project closes when it was that one; the pending delete clears; no other field of the store changes |
| CreatorStore.PortfolioCreatorStore.OpenSection | src/modules/portfolio-creator/store.ts:595-602 | the drawer opens on the key, with no item being edited and the form built from the opened payload; no other field of the store changes |
| CreatorStore.PortfolioCreatorStore.CloseDrawer | src/modules/portfolio-creator/store.ts:604-607 | the drawer closes and editing stops; the form is kept; no other field of the store changes |
| CreatorStore.PortfolioCreatorStore.EditItem | src/modules/portfolio-creator/store.ts:609-614 | with a section open, the item is edited in a form built from it; otherwise nothing changes; no other field of the store changes |
| CreatorStore.PortfolioCreatorStore.ApplySectionSaved | src/modules/portfolio-creator/store.ts:651-717 | the paywall message is cleared; the active section's items take the saved item as `SavedItems` says, editing stops and the preview changes; no other field of the store changes |
| CreatorStore.PortfolioCreatorStore.ApplyItemDeleted | src/modules/portfolio-creator/store.ts:725-739 | with a project and section open, the paywall message is cleared, the item leaves the section and the preview changes; otherwise nothing changes; no other field of the store changes |
| Summary.CountPublished | src/dashboard/summary.schema.ts:38 | published rows never outnumber rows |
| Summary.CountVisibility | src/dashboard/summary.schema.ts:47-51 | rows under one visibility never outnumber rows |
| Summary.BuildSummary | src/dashboard/summary.schema.ts:37-61 | the loop's totals are the row count, the published count and the three visibility counts; the latest time when there is one, else now; the completion hint of the counts |
| Summary.BreakdownAtMostTotal | src/dashboard/summary.schema.ts:40-51 | each row is counted under at most one visibility, so the breakdown sum is at most the total |
| Summary.BreakdownCoversKnownVisibilities | src/dashboard/summary.schema.ts:47-51 | with only known or null visibilities, the breakdown adds up to the total |
| Summary.LatestIsMaximum | src/dashboard/summary.schema.ts:46-58 | none exactly when no row has a time; otherwise it is some row's time and no row's time is later |
| Summary.CompletionHint | src/dashboard/summary.schema.ts:61 | 0 with no rows; otherwise the integer nearest to 100 · published / total, a half rounding up |
| Summary.CompletionHintBounds | src/dashboard/summary.schema.ts:61 | the hint is within 0..100, 0 with none published and 100 when all are |
| Summary.SummaryBounds | src/dashboard/summary.schema.ts:37-61 | the built summary's published count and hint stay in bounds |
| Constraints.YearOptions | src/modules/portfolio-creator/constraints.ts:5-8 | max − 1950 + 1 entries (none before 1950) |
| Constraints.YearOptionsDescend | src/modules/portfolio-creator/constraints.ts:5-8 | the options start at max and go down by one to 1950 |
| Constraints.YearOptionsExactly | src/modules/portfolio-creator/constraints.ts:1-8 | a year is offered exactly when it lies in 1950..max |
| Constraints.MonthOptionsAgreeWithMonthLabel | src/modules/portfolio-creator/constraints.ts:10-23 | twelve options valued 1..12 in order, each labelled as `monthLabel` names it |
| PortfolioCreator.DropNonSlug | src/actions/portfolioCreator.ts:102 | what remains starts with a slug character |
| PortfolioCreator.CollapseRuns | src/actions/portfolioCreator.ts:102 | only `a-z`, `0-9` and `-` remain, with no two dashes in a row |
| PortfolioCreator.StripEdgeDashes | src/actions/portfolioCreator.ts:103 | a collapsed string becomes a slug with no dash at either end |
| PortfolioCreator.Slugify | src/actions/portfolioCreator.ts:98-103 | the result is a slug: `a-z`, `0-9` and single inner dashes only |
| PortfolioCreator.SlugIsFixed | src/actions/portfolioCreator.ts:98-103 | a slug is its own slug |
| PortfolioCreator.SlugifyIdempotent | src/actions/portfolioCreator.ts:98-103 | slugifying twice is slugifying once |
| PortfolioCreator.RawSlug | src/actions/portfolioCreator.ts:106 | the base, or "portfolio" when the base is empty |
| PortfolioCreator.Candidate | src/actions/portfolioCreator.ts:107-121 | each candidate starts with the raw slug |
| PortfolioCreator.CandidatesDistinct | src/actions/portfolioCreator.ts:107-121 | the probe never tries the same slug twice |
| PortfolioCreator.EnsureTemplateAccess | src/actions/portfolioCreator.ts:125-132 | PAYMENT_REQUIRED exactly for a pro template and an unpaid caller |
| PortfolioCreator.DefaultSectionsLayout | src/actions/portfolioCreator.ts:86-96 | nine keys in order, numbered 1 to 9 |
| PortfolioCreator.SeedPayload | src/actions/portfolioCreator.ts:220-247 | a seed payload exactly for profile, about, skills and contact |
| PortfolioCreator.SeedsMatchSingleSections | src/actions/portfolioCreator.ts:314-325 | the server seeds exactly the sections the editor treats as single-item |
| PortfolioCreator.SeedSections | src/actions/portfolioCreator.ts:295-304 | nine rows of the new project with the default keys, labels and orders 1..9, all enabled |
| PortfolioCreator.FindSection | src/actions/portfolioCreator.ts:309-312 | a row with the key from the list, or none when no row has it |
| PortfolioCreator.SeedItems | src/actions/portfolioCreator.ts:308-334 | at most four order-1 items |
| PortfolioCreator.ItemsOf | src/actions/portfolioCreator.ts:340-345 | the items of one section, each from the list; none when none belong |
| PortfolioCreator.SectionsWithItems | src/actions/portfolioCreator.ts:358-363 | each section paired with its items, in section order |
| PortfolioCreator.SeedItemsLayout | src/actions/portfolioCreator.ts:308-334 | the four seed items point at the profile, about, skills and contact sections, at order 1, with their payloads |
| PortfolioCreator.SeedOnePerSingleSection | src/actions/portfolioCreator.ts:295-345 | a new project has one order-1 seed item in each of profile, about, skills and contact, and none elsewhere |
| PortfolioCreator.SeededSectionsShape | src/actions/portfolioCreator.ts:295-364 | the returned sections are nine enabled sections in default order with their seed items |
| PortfolioCreator.SeededKeyItems | src/modules/portfolio-creator/helpers.ts:211-213 | in the seeded layout each key reads the items of its own section |
| PortfolioCreator.NewProjectRendersEmpty | src/actions/portfolioCreator.ts:295-364 | a new project's sections render as `createEmptyPortfolioData()` |
| PortfolioCreator.SeededPayloadsRenderEmpty | src/actions/portfolioCreator.ts:220-247 | each seed payload reads back as the empty value of its block |
| Registry.EnsureUniqueSlug | src/actions/portfolioCreator.ts:105-123 | the slug no other project holds, and the first such one among raw, raw-2, raw-3, … |
| Registry.ProbeStep | src/actions/portfolioCreator.ts:110-121 | each taken candidate shrinks the set of untried held slugs, so the probe ends |
| Registry.CandidateIsSlug | src/actions/portfolioCreator.ts:120 | a candidate built from a slug is a slug |
| Registry.ProbedSlugIsSlug | src/actions/portfolioCreator.ts:275-276 | the probe over a slugified title settles on a slug |
| Registry.LastIndex | src/actions/portfolioCreator.ts:570-577 | the position of the id's last listing: it holds the id and no later position does |
| Registry.Reordered | src/actions/portfolioCreator.ts:570-577 | the reorder keeps the set of rows |
| Registry.ApplyOrder | src/actions/portfolioCreator.ts:570-577 | the loop's result is the reordered table |
| Registry.ReorderedRow | src/actions/portfolioCreator.ts:570-577 | a listed row gets the position of its last listing plus one; an unlisted row is unchanged |
| Registry.OwnedProject | src/actions/portfolioCreator.ts:134-145 | the project exactly when it exists and the caller owns it, else NOT_FOUND |
| Registry.AccessibleProject | src/actions/portfolioCreator.ts:147-155 | NOT_FOUND exactly when the project is missing or not owned; PAYMENT_REQUIRED exactly when it is owned but its template is locked |
| Registry.OwnedSection | src/actions/portfolioCreator.ts:157-169 | NOT_FOUND for a missing section; otherwise its project's gate decides |
| Registry.OwnedItem | src/actions/portfolioCreator.ts:171-192 | NOT_FOUND for a missing item; otherwise its section's lookup decides |
| Registry.ItemLookupWalksUp | src/actions/portfolioCreator.ts:171-192 | a successful item lookup reached an owned project whose template the caller may use |
| Registry.Touch | src/actions/portfolioCreator.ts:194-199 | only that project's `updatedAt` changes |
| Registry.TouchKeepsValid | src/actions/portfolioCreator.ts:194-199 | touching keeps the tables valid |
| Registry.Store.constructor | db/tables.ts:3-43 | empty tables, valid |
| Registry.Store.CreateProject | src/actions/portfolioCreator.ts:265-366 | succeeds exactly for a valid input and a caller who may use the template. It adds a private, unpublished project with a unique slug, nine sections and four seed items, and returns them. On error nothing changes |
| Registry.Store.UpdateProject | src/actions/portfolioCreator.ts:410-469 | errors in the source's order. On success only the given fields change (title trimmed, slug probed, theme gated) and `updatedAt` is stamped. The event is "visibility.changed" exactly when the visibility differs |
| Registry.Store.DeleteProject | src/actions/portfolioCreator.ts:471-494 | ownership only, no template gate; removes the project, its sections and their items, and nothing of other projects |
| Registry.Store.SetPublish | src/actions/portfolioCreator.ts:496-531 | `isPublished` takes the argument; `publishedAt` is now when publishing and null otherwise |
| Registry.Store.ToggleSection | src/actions/portfolioCreator.ts:533-550 | the section's `isEnabled` is set and its project touched |
| Registry.Store.ReorderSections | src/actions/portfolioCreator.ts:552-581 | BAD_REQUEST, nothing changed, when an id is not a section of the project; otherwise the reordered table and a touched project |
| Registry.Store.CreateItem | src/actions/portfolioCreator.ts:583-613 | the item is added with order count + 1 and the given data (or `{}`) verbatim |
| Registry.Store.UpdateItem | src/actions/portfolioCreator.ts:615-632 | the item's data is replaced verbatim and its project touched |
| Registry.Store.DeleteItem | src/actions/portfolioCreator.ts:634-646 | exactly that item is removed and its project touched |
| Registry.Store.ReorderItems | src/actions/portfolioCreator.ts:648-678 | BAD_REQUEST, nothing changed, when an id is not an item of the section; otherwise the reordered table and a touched project |
| Registry.Store.ReplaceProject | src/actions/portfolioCreator.ts:445-449 | the stored row is replaced, the tables stay valid and the event is logged |
| Registry.Store.InsertCreated | src/actions/portfolioCreator.ts:279-347 | the three inserts of a new project, keeping the tables valid |
| Registry.AddProjectKeepsValid | src/actions/portfolioCreator.ts:279-293 | a fresh project with a free slug keeps the tables valid |
| Registry.AddSectionsKeepsValid | src/actions/portfolioCreator.ts:295-306 | fresh sections of stored projects keep the tables valid |
| Registry.AddItemsKeepsValid | src/actions/portfolioCreator.ts:327-338 | fresh items of stored sections keep the tables valid |
| Registry.SeedSectionsFit | src/actions/portfolioCreator.ts:295-304 | the seeded sections have their distinct ids and belong to the new project |
| Registry.SeedItemsFit | src/actions/portfolioCreator.ts:327-334 | the seed items have their distinct ids and point at seeded sections |
| Registry.AddCreatedKeepsValid | src/actions/portfolioCreator.ts:279-338 | all three inserts together keep the tables valid |
| Registry.SectionOrderSetter | src/actions/portfolioCreator.ts:572-575 | the per-row write sets `order` and `updatedAt` only |
| Registry.ItemOrderSetter | src/actions/portfolioCreator.ts:668-671 | the per-row write sets `order` and `updatedAt` only |
| Registry.NewItemCounted | src/actions/portfolioCreator.ts:590-594 | a new item adds one to its section's count and leaves other counts alone |
| Registry.SectionsOutside | src/actions/portfolioCreator.ts:480-486 | exactly the sections of other projects remain |
| Registry.ItemsOutside | src/actions/portfolioCreator.ts:480-486 | exactly the items outside the project's sections remain |
| Registry.DeleteProjectKeepsValid | src/actions/portfolioCreator.ts:471-494 | the cascading delete keeps the tables valid |
| Registry.ReplaceProjectKeepsValid | src/actions/portfolioCreator.ts:410-531 | a same-id row with a unique slug and paired `publishedAt` keeps the tables valid |
| Registry.ReplaceSectionKeepsValid | src/actions/portfolioCreator.ts:533-550 | a same-id, same-project section keeps the tables valid |
| Registry.PutItemKeepsValid | src/actions/portfolioCreator.ts:583-632 | an item of a stored section keeps the tables valid |
| Registry.ReorderSectionsKeepsValid | src/actions/portfolioCreator.ts:570-577 | reordering sections keeps the tables valid |
| Registry.ReorderItemsKeepsValid | src/actions/portfolioCreator.ts:666-673 | reordering items keeps the tables valid |
| Registry.ReorderedSectionsFollowList | src/actions/portfolioCreator.ts:570-577 | with no repeats, the i-th listed section gets order i + 1 and unlisted sections are unchanged |
| Registry.ReorderedItemsFollowList | src/actions/portfolioCreator.ts:666-673 | with no repeats, the i-th listed item gets order i + 1 and unlisted items are unchanged |
| Legacy.ResetDefaults | src/actions/index.ts:31-36 | every portfolio of the user stops being default and is stamped; other users' rows are untouched |
| Legacy.ClearDefault | src/actions/index.ts:79-84 | only the user's default rows are cleared and stamped |
| Legacy.ResetsLeaveNoDefault | src/actions/index.ts:31-36 | after either reset the user has no default, and the invariant still holds |
| Legacy.PutKeepsOneDefault | src/actions/index.ts:38-49 | writing a row keeps at most one default per user when the user has no other default |
| Legacy.Defined | src/actions/index.ts:86-91 | a key is in the record exactly when some entry with it is defined |
| Legacy.CollectDefined | src/actions/index.ts:86-91 | the loop builds the record of defined entries |
| Legacy.UpdateRecordFields | src/actions/index.ts:86-93 | the record is empty exactly when no field is given, and holds each given field |
| Legacy.UpdatedPortfolio | src/actions/index.ts:97-104 | only given fields change; id, owner and creation time are kept, `updatedAt` stamped |
| Legacy.ApplyRecord | src/actions/index.ts:97-104 | id, owner and creation time are kept and `updatedAt` is stamped; a field the record leaves out keeps its stored value |
| Legacy.RecordAppliesFields | src/actions/index.ts:97-104 | writing the record over a row is writing the given fields |
| Legacy.ClearedFor | src/actions/index.ts:79-84 | the table is cleared only when a default is asked for |
| Legacy.ProjectsOf | src/actions/index.ts:279-282 | exactly the work projects of the portfolio |
| Legacy.OwnedPortfolio | src/actions/index.ts:66-77 | the portfolio exactly when it exists and the caller owns it, else NOT_FOUND |
| Legacy.NewWorkProject | src/actions/index.ts:174-187 | `isCurrent` defaults to false, fields are copied, both timestamps are now |
| Legacy.RewrittenWorkProject | src/actions/index.ts:174-207 | fields not given keep their stored value; `isCurrent` defaults to false; `createdAt` is reset to now |
| Legacy.LegacyStore.constructor | src/actions/index.ts:20 | empty, valid tables |
| Legacy.LegacyStore.CreatePortfolio | src/actions/index.ts:21-53 | a default request first resets the user's defaults; inserts under the given or fresh id; a taken id makes the insert fail (`InsertFailed`) after the reset was written; at most one default remains |
| Legacy.LegacyStore.UpdatePortfolio | src/actions/index.ts:55-108 | NOT_FOUND unless owned; a default request clears the user's default first; no field returns the stored row and writes nothing; otherwise the given fields are written |
| Legacy.LegacyStore.ClearUserDefault | src/actions/index.ts:79-84 | the clear leaves the user with no default, valid |
| Legacy.LegacyStore.PutPortfolio | src/actions/index.ts:97-104 | the row is written back, valid |
| Legacy.LegacyStore.DeletePortfolio | src/actions/index.ts:121-142 | removes only the row matching id and owner, else NOT_FOUND |
| Legacy.LegacyStore.SaveProject | src/actions/index.ts:144-215 | NOT_FOUND unless the portfolio is owned, and for a project of another portfolio; inserts or rewrites as above |
| Legacy.LegacyStore.DeleteProject | src/actions/index.ts:217-257 | deletes only when the portfolio is owned and the project belongs to it, else NOT_FOUND |
| Legacy.LegacyStore.GetPortfolioWithProjects | src/actions/index.ts:259-286 | an owned portfolio with exactly its work projects, else NOT_FOUND |

## Left out

- `listProjects`, `getProject` and `listPortfolios`: read-only queries whose only logic is the database's ordering.
- `pushDashboardActivity` and `notifyParent` are network calls with swallowed errors. The activity event names are recorded in a ghost log only.
- JSON parsing and serialisation of item data (`safeParseJson`, `JSON.stringify`): payloads are already-parsed records with optional fields. The `normalizePortfolio*` converters become the identity as a result.
- `formatDateLabel` and `toIsoString`: locale and ISO date formatting. Timestamps are integers, and `meta.lastUpdatedLabel` is not modelled.
- Summary.CompletionHint: the source computes `Math.round((published / total) * 100)` in IEEE doubles, and the model computes the exact percentage rounded half up. They differ when the double product falls just below a half. Examples, worked out in double-precision arithmetic (the source was not executed): 23 of 40 gives 57 in the source and 58 in the model; 29 of 200 gives 14 against 15; 57 of 200 gives 28 against 29. The model's contract states the exact rounding, its bounds and its 0 and 100 cases.
- Text.Trim: its own contract states only that both ends are whitespace-free and the length does not grow. That only edge whitespace is removed is stated by TrimCut, TrimCutsEdges and TrimUnique. Putting it in the function's contract makes every proof that uses `Trim` much more expensive.
- Helpers.EnabledSections: membership ("exactly the enabled sections") is stated by EnabledSectionsExactly and order by EnabledSectionsAppend, not in the function's contract, for the same cost reason. The same split holds for PublicOutput.CleanList, PublicLinks, PublicSkills and VisibleSections, and for Helpers.NormalizeLinks, with their `Exactly` and `Append` lemmas.
- Summary.CountVisibility: the source counts a row when `visibility in visibilityBreakdown`, which also holds for names the object inherits (such as "toString"), and then adds one to that property. The model counts only the three literal visibility keys.
- Helpers.ProfileOf: the source spreads the whole stored profile object, so a `null` field and keys outside the eight profile fields are copied too. The model has only the eight string fields, each present or absent.
- Helpers.CredentialOf: the source turns a numeric `year` into text with `String()` before trimming. The model's payload holds `year` as a string, so a numeric year is not modelled.
- Helpers.ExperienceOf: the source reads years and months with `Number()`, which accepts numeric strings and non-integers and turns `null` into 0. The model's payload holds them as optional integers, so those conversions are not modelled. The same holds for Helpers.EducationOf.
- Helpers.IsPresentOf: the source applies `Boolean()` to whatever is stored, so a non-boolean such as the string "false" counts as true. The model's payload holds booleans only.
- PortfolioCreator.Slugify: Unicode `toLowerCase` is modelled for ASCII letters only.
- Concurrency: the check-then-insert slug race, the non-transactional inserts of `createProject`, and the per-row reorder loop. Each handler runs to completion in one step.
- Profile photos: the project row's photo columns are not modelled.
- Input coercion: `z.coerce.date()` and explicit `undefined` keys in inputs are not modelled. An optional field is present or absent.
- The `PORTFOLIO_MAX` and `PORTFOLIO_LIMITS` constants are declared but not enforced anywhere, matching the source.
- `PortfolioCreatorStore`'s `loading`, `error` and `success` messages, `unwrapResult`, the action calls, `init`, `loadProjects` and `loadProject`. Also the post-result updates of `createProject`, `togglePublish` and `toggleSectionEnabled`. Action results are method parameters.
- The store's untyped `formData` record is a fixed form with a field per payload key; `{}` is the form with every field blank.
- `requireUser` in the registry handlers comes from `./_guards`, which is not part of this model. It is taken to behave like the one in src/actions/index.ts.
- Legacy.RewrittenWorkProject: the update leaves a column alone when its input is undefined (drizzle drops `undefined` keys from `set`). This behaviour is assumed, since it is not visible in these files.
- Registry.Store.CreateProject: takes the fresh section and item ids as parameters and requires them to be unused, standing for `randomUUID`.
- Legacy.LegacyStore.SaveProject: the insert at src/actions/index.ts:212 passes no id, so the row's id comes from a database default outside these files. The model takes that id as a parameter and requires it to be unused.
- Registry.Store.CreateItem: takes the new item's id as a parameter and requires it to be unused, standing for `randomUUID`.
- Legacy.LegacyStore.CreatePortfolio: takes the id drawn when none is given as a parameter and requires it to be unused, standing for `crypto.randomUUID()`.
