# KanakArtistry inquiry and reporting core, in Dafny

KanakArtistry is a website that sells handmade paintings and takes custom commissions. This project models its core logic:

- **Inquiry handling.** A visitor fills in the inquiry dialog. The browser saves the inquiry as a `queries` row, together with the visitor's address, the time and the user agent. It then asks the `send-inquiry-notification` edge function to e-mail the artist. The older Hono server offers a second path: it stores inquiries in a key-value table, lists them, updates their status, and e-mails them.
- **Daily report.** The `send-daily-report` function counts the last 24 hours of inquiries and visits and e-mails a summary.
- **Admin dashboard.** The dashboard lists the saved inquiries.
- **Page-level logic:**
  - the page's dialog and dashboard state, with the Ctrl/Cmd+Shift+A shortcut;
  - the "commission similar" request from the gallery, and the gallery's click-to-reveal artworks;
  - the breadcrumb structured data kept in the document head;
  - the SEO meta tags and JSON-LD builders;
  - the image alt/title and source helpers.

Each source file is one module:

- **Imperative files** (their handlers update state in place) are classes with a `modifies` clause per method: the inquiry store, the two Supabase tables, the dialog, the page, the dashboard, the head and the gallery. Each method's `ensures` ties the new state to a pure transition function of the old state, and the properties are proved about those functions.
- **Pure files** are functions and lemmas.

Everything outside the code becomes a parameter of the operation that uses it:

- the clock;
- the random id suffix;
- what `fetch`, Supabase and Resend answer;
- environment variables;
- the user agent;
- the page's host name.

JavaScript values that a request body may carry are `Js.Value`. In that type, `||` and `?.` are modelled by truthiness, and a missing field is `Undefined`.

Where the prose description of the system and the code differ, the model follows the code:

- **The report window.** It is `submitted_at >= now - 24h`, as the `.gte` filter has it, with no upper bound. It is not a half-open window.
- **A failed report query does not abort the report.** Its `data` is `null`, so it counts as zero rows.
- **Distinct visitors** are counted by the set of `ip_address` values, as `new Set(...).size` does.

Some behaviour is the code's own and is stated as it is:

- The dashboard turns the timeline `1-2-weeks` into `1 2-weeks`, because only the first dash is replaced.
- An `Error` with an empty message, thrown while the dashboard refreshes, leaves the old list on screen.
- A plain "Inquire" click does not clear an art type that an earlier "commission similar" put into the form. This happens because the dialog ignores an empty `initialArtType`.

## Model

| member | source | states |
|---|---|---|
| InquiryServer.NewInquiryId | src/supabase/functions/server/index.tsx:41 | every generated id starts with `inquiry_` |
| InquiryServer.NewInquiry | src/supabase/functions/server/index.tsx:44-56 | the stored record copies name, email, artType and message; phone, size, budget and timeline are kept when truthy and are `''` otherwise; status is `new` and the record has no `updatedAt` |
| InquiryServer.HasRequiredFields | src/supabase/functions/server/index.tsx:33 | the create endpoint accepts a body iff the four fields the e-mail endpoint checks are all truthy |
| InquiryServer.WithStatus | src/supabase/functions/server/index.tsx:203-207 | only `status` and `updatedAt` change; every other field of the record is kept |
| InquiryServer.InsertKeepsCounts | src/supabase/functions/server/index.tsx:142-147 | inserting one more key's record keeps "each record appears as often as the keys holding it" |
| InquiryServer.InquiryStore.constructor | src/supabase/functions/server/index.tsx:4 | the table starts empty |
| InquiryServer.InquiryStore.Create | src/supabase/functions/server/index.tsx:28-74 | an unparsable body gives 500, a `null` body gives 500 with the error from reading `name`, and a missing required field gives 400, each with no write; a rejected `kv.set` gives 500 with its message and no write; otherwise the record is written under the returned `inquiry_` key, replacing any record there, and nothing else changes |
| InquiryServer.InquiryStore.Get | src/supabase/functions/server/index.tsx:164-187 | found iff `kv.get` succeeds and the key is stored, and then the stored record; a rejected read gives 500 with its message; otherwise 404 `Inquiry not found` |
| InquiryServer.InquiryStore.UpdateStatus | src/supabase/functions/server/index.tsx:190-222 | checked in the source's order: an unparsable body gives 500, then a rejected read gives 500, then an unknown id gives 404 (also for a `null` body), then a `null` body gives 500 from reading `status`, then a rejected write gives 500, all with no write; otherwise only that key changes, to the record with the new status |
| InquiryServer.InquiryStore.SortedInquiries | src/supabase/functions/server/index.tsx:142-147 | every record under an `inquiry_` key, newest `createdAt` first, each exactly as often as keys hold it |
| InquiryServer.InquiryStore.List | src/supabase/functions/server/index.tsx:140-161 | a rejected read gives 500 with its message; otherwise the reply lists every `inquiry_` record, newest `createdAt` first, each record exactly as often as it is stored, and `count` is its length |
| InquiryServer.FirstMissingField | src/supabase/functions/server/index.tsx:82-87 | none iff all four required fields are non-empty strings; otherwise it is the first one, in checking order, that is not |
| InquiryServer.EmailFor | src/supabase/functions/server/index.tsx:90-115 | sender is fixed; recipient is DESTINATION_EMAIL when set, else `contact@kanakartistry.com`; subject is `New Inquiry from <name>`; optional fields render `-` when falsy |
| InquiryServer.EmailInquiry | src/supabase/functions/server/index.tsx:77-137 | an unparsable body gives 500; a `null` body gives 500 with the error from reading `name`; a missing field gives 400 naming the first one; a missing key gives 500; otherwise the e-mail is sent, and a non-ok or unreachable provider gives 500 |
| Client.VisitorIp | src/utils/supabase/client.ts:9-17 | the answer's `ip` when it is truthy, `unknown` otherwise; never falsy |
| Client.InquiryRow | src/utils/supabase/client.ts:58-71 | reading the row back gives the form; address, time and user agent are the given ones; status is `pending` |
| Client.Database.constructor | src/utils/supabase/client.ts:6 | both tables start empty |
| Client.Database.SaveInquiry | src/utils/supabase/client.ts:44-89 | on success exactly the row is appended and returned; on an insert error it fails with that message and nothing is written; the visitors table never changes |
| Client.Database.TrackVisitor | src/utils/supabase/client.ts:20-41 | without an error one visit row is appended, and with one nothing is; the call never fails; the queries table never changes |
| Client.FunctionsBase | src/utils/supabase/client.ts:92-104 | a set override wins; an unparsable project URL gives the fixed fallback; otherwise the result is an `https://` URL |
| Client.ProjectHostToFunctionsBase | src/utils/supabase/client.ts:96-100 | `<ref>.supabase.co` maps to `https://<ref>.functions.supabase.co/server` |
| Client.FallbackMatchesDefaultProject | src/utils/supabase/client.ts:92-104 | the fixed fallback equals what the default project URL yields |
| Client.OtherHostKept | src/utils/supabase/client.ts:98 | a host without `.supabase.co` is kept unchanged |
| Client.InquiryEmailUrl | src/utils/supabase/client.ts:118 | the URL is the base followed by the e-mail endpoint path |
| Client.FormPassesServerCheck | src/utils/supabase/client.ts:121 | the server accepts a posted form iff name, email, art type and message are non-empty |
| Client.SendInquiryEmailResult | src/utils/supabase/client.ts:117-127 | succeeds iff the response is ok and parses, with that JSON; a non-ok response fails with `Failed to send inquiry email` |
| InquiryNotification.MissingSecrets | supabase/functions/send-inquiry-notification/index.ts:29-34 | a secret is listed iff it is absent or empty; only the three names appear, in their fixed order; the list is empty iff all three are present |
| InquiryNotification.MissingSecretsMessage | supabase/functions/send-inquiry-notification/index.ts:36 | the message is the fixed lead, the missing names joined with `, `, and the Vault hint, in that order |
| InquiryNotification.MissingMessageNamesEach | supabase/functions/send-inquiry-notification/index.ts:36 | the error message contains every missing secret's name |
| InquiryNotification.AllSecretsMissing | supabase/functions/send-inquiry-notification/index.ts:30-36 | with all three missing (an empty value counts), the joined list names all three, in order |
| InquiryNotification.Recipient | supabase/functions/send-inquiry-notification/index.ts:61 | the configured address when it is present, else `kanakartistry.art@gmail.com`; never empty |
| InquiryNotification.DeviceLine | supabase/functions/send-inquiry-notification/index.ts:260 | falsy gives `Unknown`; a string gives its first 80 characters followed by `...`; a truthy non-string throws |
| InquiryNotification.NotificationFor | supabase/functions/send-inquiry-notification/index.ts:206-284 | the e-mail goes to the recipient with subject `🎨 New Art Inquiry from <name>`; size and budget fall back to `Not specified` and the address to `Unknown`; rendering fails exactly when the device line throws |
| InquiryNotification.HintFor | supabase/functions/send-inquiry-notification/index.ts:314 | the invalid-key hint iff the status is 401, the dashboard hint otherwise |
| InquiryNotification.AfterSend | supabase/functions/send-inquiry-notification/index.ts:296-334 | delivered iff the provider answered 2xx, sent to the recipient, with the message id when the body parses; a non-2xx status gives a failure carrying that status and body |
| InquiryNotification.Handle | supabase/functions/send-inquiry-notification/index.ts:11-348 | OPTIONS gives the preflight; missing secrets give 500 with the message and send nothing; a `null` body gives 500 from reading `submitted_at` and sends nothing; an e-mail is sent iff secrets are present, the body is an object and it renders; status 200 only for preflight or delivery |
| DailyReport.SelectQueries | supabase/functions/send-daily-report/index.ts:19-23 | exactly the rows in the window, with their multiplicities, newest first |
| DailyReport.SelectVisitors | supabase/functions/send-daily-report/index.ts:26-29 | exactly the visits in the window, with their multiplicities |
| DailyReport.DistinctIpsAtMostVisits | supabase/functions/send-daily-report/index.ts:31-32 | distinct addresses never exceed visits |
| DailyReport.ComputeStats | supabase/functions/send-daily-report/index.ts:31-33 | unique visitors are the distinct addresses, never more than total visits; a null result counts as 0 |
| DailyReport.SharedAddressCountsOnce | supabase/functions/send-daily-report/index.ts:31 | four visits from two addresses give 2 unique and 4 total |
| DailyReport.CardFor | supabase/functions/send-daily-report/index.ts:85-96 | each card copies name, email, message and time; phone, size, budget and timeline fall back to `N/A`, art type to `Not specified` |
| DailyReport.RenderReport | supabase/functions/send-daily-report/index.ts:36-107 | the HTML is the preamble and stat boxes, then either `No New Inquiries` or the heading and one card per inquiry in order, then the footer |
| DailyReport.CardsOfCardBlocks | supabase/functions/send-daily-report/index.ts:84-97 | the cards read back from the rendered blocks are the inquiries' cards, in order |
| DailyReport.ReportCards | supabase/functions/send-daily-report/index.ts:76-98 | any rendered report holds exactly the inquiries' cards, and holds `No New Inquiries` iff there are none |
| DailyReport.InquiryNoun | supabase/functions/send-daily-report/index.ts:119 | the noun is `Inquiry` or `Inquiries`, and `Inquiry` exactly when the count is 1 |
| DailyReport.Subject | supabase/functions/send-daily-report/index.ts:119 | the subject starts with the report lead and ends with ` Visitors` |
| DailyReport.SubjectReadsBack | supabase/functions/send-daily-report/index.ts:119 | the subject reads back completely: the lead, digits that read back as the inquiry count, `Inquiry` iff that count is 1 and `Inquiries` otherwise, the separating bar, digits that read back as the unique-visitor count, and ` Visitors` |
| DailyReport.ResponseFor | supabase/functions/send-daily-report/index.ts:124-145 | success iff the provider answered ok with JSON, carrying its id and the stats; non-ok gives `Resend API error: <text>`; status 500 iff not sent |
| DailyReport.SendDailyReport | supabase/functions/send-daily-report/index.ts:5-146 | a missing SUPABASE_URL or service key makes creating the client throw: 500 with that error and no e-mail; otherwise the e-mail goes from the fixed sender to the fixed recipient, with the subject and HTML for the window's stats and inquiries, and the response is the provider's outcome |
| InquiryModal.Set | src/components/InquiryModal.tsx:104-111 | the named field takes the value and every other field is kept |
| InquiryModal.WithInitialArtType | src/components/InquiryModal.tsx:25-29 | a non-empty initial art type overwrites only the art type; an empty one changes nothing |
| InquiryModal.Changed | src/components/InquiryModal.tsx:104-111 | an edit changes one form field and nothing else of the state |
| InquiryModal.Began | src/components/InquiryModal.tsx:38-39 | submitting is on and the error is cleared; the form is kept |
| InquiryModal.Finished | src/components/InquiryModal.tsx:79-101 | submitting ends; a save marks the dialog submitted; a thrown save sets the error text |
| InquiryModal.Submitted | src/components/InquiryModal.tsx:35-102 | a whole submission leaves the form as it was and submitting off; success means submitted with no error, failure means the error message |
| InquiryModal.NotificationNeverFatal | src/components/InquiryModal.tsx:61-77 | the notification's outcome never changes the submission's result |
| InquiryModal.AfterReset | src/components/InquiryModal.tsx:82-95 | the reset empties every field and clears submitted |
| InquiryModal.SubmitThenResetIsInitial | src/components/InquiryModal.tsx:35-95 | a successful submission followed by its reset returns the dialog to its initial state |
| InquiryModal.NotificationPayload | src/components/InquiryModal.tsx:46-58 | each payload field is the saved column when present, else the form's value (or the time, `''`, or the user agent) |
| InquiryModal.SavedFormReachesNotification | src/components/InquiryModal.tsx:43-58 | a saved form's notification carries the form's own name, email, phone, art type, timeline, message, size and address |
| InquiryModal.InquiryForm.constructor | src/components/InquiryModal.tsx:14-33 | the dialog starts empty, not submitted, with no error |
| InquiryModal.InquiryForm.ApplyInitialArtType | src/components/InquiryModal.tsx:25-29 | the state becomes `WithInitialArtType` of the old state |
| InquiryModal.InquiryForm.HandleChange | src/components/InquiryModal.tsx:104-111 | the state becomes `Changed` of the old state |
| InquiryModal.InquiryForm.HandleSubmit | src/components/InquiryModal.tsx:35-102 | the state becomes `Submitted` of the old state; a notification payload is produced iff the save succeeded |
| InquiryModal.InquiryForm.ResetAfterSuccess | src/components/InquiryModal.tsx:82-95 | the state becomes `AfterReset` of the old state |
| Seo.ListItemsFrom | src/utils/seo.ts:151-156 | one item per input, in order, numbered from the given start, with name and URL copied |
| Seo.BreadcrumbSchema | src/utils/seo.ts:147-158 | one `ListItem` per input, in order, at position i+1, with name and item copied |
| Seo.FaqSchema | src/utils/seo.ts:163-176 | one Question per FAQ, in order, with the question and answer copied |
| Seo.CreateProductSchema | src/utils/seo.ts:121-142 | name, description and image are copied; the brand is KanakArtistry; `offers` is present iff the price is truthy, and then it carries that price in INR |
| Seo.CreateReviewSchema | src/utils/seo.ts:181-197 | best `5`, worst `1`, author and body copied; rating is the decimal text of the number |
| Seo.ReviewRatingReadsBack | src/utils/seo.ts:187 | a whole-number rating's text reads back as that rating |
| Seo.SeoTagsOn | src/utils/seo.ts:19-52 | the tags written are exactly the old ones plus the ones this page sets |
| Seo.SeoTagsOnText | src/utils/seo.ts:24-45 | description, og:description and twitter:description carry the page's description; og:title and twitter:title its title; keywords, when there are any, are joined with `, `; the twitter card is `summary_large_image` |
| Seo.SeoTagsOnDefaults | src/utils/seo.ts:33-34 | og:type is the page type or `website` when none is given; og:url is the page URL or the site URL |
| Seo.SeoTagsOnImage | src/utils/seo.ts:36-48 | with a truthy image, og:image and twitter:image carry it, and the size tags say 1200 by 630 |
| Seo.SeoTagsOnKeepsOthers | src/utils/seo.ts:57-67 | a tag the page does not set keeps its content |
| Seo.DocumentHead.constructor | src/utils/seo.ts:19 | the head starts with no title, tags or canonical link |
| Seo.DocumentHead.UpdateMetaTag | src/utils/seo.ts:57-67 | exactly that tag takes the content; the title and canonical link are kept |
| Seo.DocumentHead.UpdateCanonicalUrl | src/utils/seo.ts:72-82 | the canonical link becomes the URL; nothing else changes |
| Seo.DocumentHead.SetSeoTags | src/utils/seo.ts:19-52 | the title is the page's, the tags become `SeoTagsOn` of the old ones, and the canonical link is the page URL or the site |
| Seo.UpdateMetaTagIdempotent | src/utils/seo.ts:57-67 | writing the same tag twice is the same as writing it once |
| ImageOptimization.GetOptimizedImageProps | src/utils/imageOptimization.ts:64-78 | src is returned unchanged and the class is constant; loading defaults to lazy; an unknown key gives both fallbacks; alt and title are never empty |
| ImageOptimization.KnownKeyUsesTable | src/utils/imageOptimization.ts:64-78 | for a key in the table, alt and title are that entry's own |
| ImageOptimization.GenerateImageSrcSet | src/utils/imageOptimization.ts:96-101 | both sources are `<basePath>/<imageId>` (basePath `/images` when omitted) with `.webp` and `.jpg` |
| ImageOptimization.SrcSetDistinguishesImages | src/utils/imageOptimization.ts:96-101 | different ids never share a source path |
| App.SimilarArtwork | src/App.tsx:40 | the text is `<medium> - Similar to "` followed by `<title>"`, and is never empty |
| App.IsAdminShortcut | src/App.tsx:24 | a match needs Shift, the capital key `A`, and Ctrl or Cmd; a lower-case `a` never matches |
| App.InquireClicked | src/App.tsx:34-37 | the dialog opens with an empty art type; the dashboard flag is untouched |
| App.InquiredWithArtwork | src/App.tsx:39-42 | the dialog opens with the similar-to art type; the dashboard flag is untouched |
| App.ModalClosed | src/App.tsx:44-47 | the dialog closes and the art type is cleared; the dashboard flag is untouched |
| App.KeyPressed | src/App.tsx:23-28 | the shortcut opens the dashboard and touches nothing else; any other key changes nothing |
| App.AdminClosed | src/App.tsx:49-51 | the dashboard closes; the dialog and art type are untouched |
| App.ShortcutNeedsModifierAndCapital | src/App.tsx:24 | Shift+A without Ctrl or Cmd, or a lower-case `a`, does nothing; Cmd+Shift+A opens the dashboard |
| App.CommissionPrefillsForm | src/App.tsx:39-61 | after "commission similar", the dialog's art type is the similar-to text and nothing else of the form changes |
| App.PlainInquiryKeepsFormArtType | src/App.tsx:34-61 | the empty art type of a plain inquiry or a close leaves the dialog's form as it was |
| App.AppState.constructor | src/App.tsx:12-14 | both closed, no art type |
| App.AppState.HandleKeyDown | src/App.tsx:23-28 | the state becomes `KeyPressed` of the old state |
| App.AppState.HandleInquireClick | src/App.tsx:34-37 | the state becomes `InquireClicked` of the old state |
| App.AppState.HandleInquireWithArtwork | src/App.tsx:39-42 | the state becomes `InquiredWithArtwork` of the old state |
| App.AppState.HandleCloseModal | src/App.tsx:44-47 | the state becomes `ModalClosed` of the old state |
| App.AppState.HandleCloseAdminDashboard | src/App.tsx:49-51 | the state becomes `AdminClosed` of the old state |
| AdminDashboard.ArtTypeName | src/components/AdminDashboard.tsx:70-83 | a known key gives its label and any other key is returned unchanged |
| AdminDashboard.ArtTypeNameFixesOnlyUnknownKeys | src/components/AdminDashboard.tsx:70-83 | the name equals the key iff the key is not one of the nine |
| AdminDashboard.SimilarArtTypeShownVerbatim | src/components/AdminDashboard.tsx:187 | a similar-to art type from the gallery is shown as it is |
| AdminDashboard.TimelineDisplay | src/components/AdminDashboard.tsx:189-192 | same length; only the first dash becomes a space; every other character, each later dash included, is kept |
| AdminDashboard.TimelineLine | src/components/AdminDashboard.tsx:189-194 | the timeline line is shown iff the timeline is non-empty |
| AdminDashboard.TimelineFirstDashOnly | src/components/AdminDashboard.tsx:192 | `1-2-weeks` is shown as `1 2-weeks` |
| AdminDashboard.CountNoun | src/components/AdminDashboard.tsx:104 | `inquiry` iff the count is 1, else `inquiries` |
| AdminDashboard.HeaderText | src/components/AdminDashboard.tsx:104 | the header begins with the count in decimal, a space and the noun that agrees with it |
| AdminDashboard.HeaderCountReadsBack | src/components/AdminDashboard.tsx:104 | the header starts with digits that read back as the count |
| AdminDashboard.FetchBegun | src/components/AdminDashboard.tsx:32-33 | loading is on and the error is cleared; the list is kept |
| AdminDashboard.FetchFinished | src/components/AdminDashboard.tsx:35-51 | rows (null as empty) replace the list; on failure the error is set and the list is kept; loading ends in every outcome |
| AdminDashboard.FetchOutcomes | src/components/AdminDashboard.tsx:31-52 | a whole fetch ends not loading, with the rows and no error, or with the old list and the error text |
| AdminDashboard.PanelOf | src/components/AdminDashboard.tsx:85-152 | nothing when closed, then the spinner, then a non-empty error, then the empty notice, then the list |
| AdminDashboard.EmptyErrorMessageShowsOldList | src/components/AdminDashboard.tsx:136-152 | a failure with an empty message leaves the old list on screen |
| AdminDashboard.Dashboard.constructor | src/components/AdminDashboard.tsx:26-29 | empty list, not loading, no error, nothing selected |
| AdminDashboard.Dashboard.BeginFetch | src/components/AdminDashboard.tsx:32-33 | the state becomes `FetchBegun` of the old state |
| AdminDashboard.Dashboard.FinishFetch | src/components/AdminDashboard.tsx:35-51 | the state becomes `FetchFinished` of the old state |
| AdminDashboard.Dashboard.SelectInquiry | src/components/AdminDashboard.tsx:160 | the clicked inquiry is selected; nothing else changes |
| AdminDashboard.Dashboard.CloseDetails | src/components/AdminDashboard.tsx:212-227 | nothing is selected; nothing else changes |
| Breadcrumb.SchemaItems | src/components/Breadcrumb.tsx:19-22 | one entry per item, in order, named by its label, with its url or the site URL |
| Breadcrumb.TrailSchema | src/components/Breadcrumb.tsx:19-26 | the script's schema lists the items in order at positions 1, 2, …, each with a non-empty link |
| Breadcrumb.FirstBreadcrumbScript | src/components/Breadcrumb.tsx:29 | the first breadcrumb-schema script of the head, or none if there is none |
| Breadcrumb.WithoutFirstBreadcrumb | src/components/Breadcrumb.tsx:29-30 | with no breadcrumb script the head is unchanged; otherwise exactly the first breadcrumb script is removed and every other node, other scripts included, stays |
| Breadcrumb.EffectApplied | src/components/Breadcrumb.tsx:24-32 | the new script is last and carries the trail's schema; the breadcrumb-script count is unchanged, or 1 if there were none; other nodes stay |
| Breadcrumb.AtMostOneBreadcrumbScript | src/components/Breadcrumb.tsx:29-32 | from at most one breadcrumb script, the head holds exactly one after the effect |
| Breadcrumb.WithoutNode | src/components/Breadcrumb.tsx:34-36 | exactly the nodes other than that one remain |
| Breadcrumb.CleanupUndoesAppend | src/components/Breadcrumb.tsx:24-36 | the effect followed by its cleanup leaves the head minus only the script it replaced |
| Breadcrumb.Head.constructor | src/components/Breadcrumb.tsx:18 | the head holds the given nodes |
| Breadcrumb.Head.ApplyEffect | src/components/Breadcrumb.tsx:18-33 | the nodes become `EffectApplied` of the old nodes, with a fresh script identity |
| Breadcrumb.Head.Cleanup | src/components/Breadcrumb.tsx:34-36 | the nodes become `WithoutNode` of the old nodes |
| Breadcrumb.Rendered | src/components/Breadcrumb.tsx:42-66 | one entry per item, showing its label; a link to the url iff the url is truthy; a separator iff the entry is not the last |
| Breadcrumb.SeparatorsBetweenItems | src/components/Breadcrumb.tsx:62-64 | n items give n−1 separators, and none when there are no items |
| Gallery.ArtworkIdsDistinct | src/components/Gallery.backup.tsx:34-128 | no two artworks share an id |
| Gallery.Toggled | src/components/Gallery.backup.tsx:150-155 | the id's entry becomes the opposite of its visibility; every other entry is kept |
| Gallery.ToggleTwiceRestoresVisibility | src/components/Gallery.backup.tsx:150-155 | toggling twice restores every visibility; the map itself is restored only if the id had an entry |
| Gallery.ToggleLeavesOthers | src/components/Gallery.backup.tsx:150-155 | other artworks' visibility is unchanged |
| Gallery.CardViewOf | src/components/Gallery.backup.tsx:213-236 | the overlay is hidden and the image displayed iff the artwork is revealed; the labels say Hide or Show accordingly |
| Gallery.ToggleChangesOnlyThatCard | src/components/Gallery.backup.tsx:211-236 | a click changes only the clicked card's view, and always changes whether its image is displayed |
| Gallery.CommissionRequest | src/components/Gallery.backup.tsx:278 | with a handler the request carries the artwork's own title and medium; without one, nothing |
| Gallery.CommissionNamesThatArtwork | src/components/Gallery.backup.tsx:278 | the request opens the dialog with that artwork's similar-to text |
| Gallery.GalleryState.constructor | src/components/Gallery.backup.tsx:141 | the map starts empty, so every artwork is hidden |
| Gallery.GalleryState.ToggleImageVisibility | src/components/Gallery.backup.tsx:150-155 | the map becomes `Toggled` of the old map |
| Sequences.SortNewestFirst | src/supabase/functions/server/index.tsx:145-147 | the result is newest first and a permutation of the input |
| Strings.ReplaceFirstSplit | src/utils/supabase/client.ts:98 | `replace` with a string pattern replaces only the first occurrence |
| Strings.Take | supabase/functions/send-inquiry-notification/index.ts:260 | `substring(0, n)` is a prefix of at most n characters, and the whole string when it is shorter |
| Strings.NatToStringRoundTrip | supabase/functions/send-daily-report/index.ts:119 | the decimal text of a count reads back as that count |

## Left out

- `kv_store.tsx` is not part of this model. The server's table is a map with `set`, `get` and `getByPrefix`; each call's rejection is a parameter, and a rejected `set` is taken to leave the table unchanged.
- A JSON request body other than an object or `null` (a number, string or array) is read as an object without the fields the handlers look at; the error texts a `null` body gives are V8's `TypeError` messages.
- The daily report does not check RESEND_API_KEY; a missing key only changes what Resend answers, and that answer is a parameter. The errors for a missing Supabase URL or key are the Supabase client constructor's own messages, and the client library is not part of this model.
- The health endpoint, `Deno.serve`/`serve`, Hono routing, CORS headers and the request logger are left out. They are wiring, not logic.
- Date and locale formatting (`toISOString`, `toLocaleString('en-IN')`, the IST formatter) is left out. Timestamps are integers of milliseconds. An unparsable `submitted_at`, which would make the formatter throw, is not modelled.
- The report window is `now - 24h` in milliseconds. The daylight-saving effect of `setHours(getHours() - 24)` is not modelled.
- HTML and CSS markup is left out. E-mails and pages are modelled as the records of rendered field texts, or the block sequence, that the markup interpolates.
- The Resend `fetch`, the Supabase queries, inserts and `functions.invoke`, and the api.ipify.org call are parameters. Each one's answer is a value.
- `getFunctionsBase` takes the host name as a parameter; URL parsing is not modelled.
- Strings are sequences of Unicode scalar values. `substring(0, 80)` counts UTF-16 code units in the source; for characters outside the BMP the two differ.
- `preloadImages` is left out because it only appends DOM nodes. `trackEvent`/`trackPageView` are left out because they call the external `gtag`. The organization schema, `addStructuredData` and the document title effect in `App.tsx` are left out because they are constants and DOM writes.
- The order in which meta tags are appended to the head is not modelled. The head's tags are a map from (attribute, name) to content.
- `Seo.CreateReviewSchema`: a rating is an integer. Fractional ratings and JavaScript's float-to-text conversion are not modelled.
- `InquiryModal.Changed`: input names outside the eight form fields are not modelled, because the form only has those eight inputs.
- `AdminDashboard.ArtTypeName`: keys inherited from `Object.prototype` are treated as unknown, so the key itself is shown. In the source, `constructor` looks up the `Object` function, which React renders as nothing (with a warning). `__proto__` looks up `Object.prototype`, an object, and React throws "Objects are not valid as a React child". So one stored inquiry with art type `__proto__` stops the dashboard from rendering. The browser inserts that row directly, so any visitor can store one. The model does not capture this failure.
- `ImageOptimization.GetOptimizedImageProps`: keys inherited from `Object.prototype` are treated as unknown. In the source they also give the fallbacks.
- `Breadcrumb.FirstBreadcrumbScript`: only the head is searched. The source's `querySelector` searches the whole document, and the model assumes no breadcrumb script is outside the head.
- The dialog's `onClose` callback, the dashboard's and dialog's open/close animations, and the 3-second timer are left out. The timer's body is the separate `ResetAfterSuccess` step.
- The dashboard's `order('submitted_at', descending)` is done by the database. The fetched rows are a parameter.
- The `query-tracker-app` directory, the build scripts, and the presentation components (Hero, About, Contact, Footer, Navigation, Logo, ImageLightbox, LazyImage, `Gallery.tsx`) are not part of this model.
