# Sankalp page logic, modelled in Dafny

Sankalp is a React front end for a community platform: members vote in polls, mark
attendance at events, follow organizations, announce livestreams and trade in a
marketplace. Almost all of it is layout. The logic lives in small handlers inside the page
components. Each handler takes a list of records, or a form, and installs a new one. This
project models those handlers and the list projections next to them, and proves what they
do:

- `Text`: the string operations the pages call. `toLowerCase` is ASCII lowering. `includes`
  is a left-to-right scan, proved equal to "occurs at some position". `trim` strips the
  ECMAScript white-space and line-terminator characters.
- `Lists`: the two shapes every page uses. `MapWhere` is `list.map(x => cond ? f(x) : x)`.
  `Filter` is `list.filter(p)`, proved to keep, in order, exactly the elements that pass,
  each as often as in the input.
- `Records`: the record shapes declared in `src/App.tsx`.
- `Polls`, `Events`, `Organizations`, `Livestreams`, `Marketplace`, `Profile`: one module
  per page. Handlers that only compute a new list are functions. Handlers that write a
  page's state fields one after another are methods of a class holding those fields
  (`PollsPage`, `OrganizationsPage`, `LivestreamPage`, `MarketplacePage`).

Ids and timestamps come from `Date.now()` and `new Date()` in the code. Here they are
parameters of the handlers, and nothing assumes they are unique.

## What the code does, as opposed to a richer engagement design

The handlers are simple counters and flags, not the membership-based engine a social
platform might be expected to have. The model follows the code:

- Votes are not deduplicated and polls never close. `Polls.RepeatedVotesAccumulate` proves
  that `n` votes for one option raise its tally and the poll's total by exactly `n`.
- Attendance is a boolean flag plus a counter moved by one. No attendee set exists. The
  preserved quantity is `attendees - (isAttending ? 1 : 0)`.
- Following flips `isFollowing` and never touches `followers`.
- Creating a poll does not check that there are at least two options. The form starts with
  two options and can only grow, so `PollsPage.Valid()` holds throughout and every created
  poll has at least two options.
- The leaderboard on the ranking page is fixed data, and no points, streaks or badges are
  computed anywhere.

## Model

| member | source | states |
|---|---|---|
| `Text.IncludesIffOccurs` | src/components/EventsPage.tsx:14-15 | `includes` holds exactly when the term occurs at some position of the text (both directions) |
| `Text.EmptyTermMatches` | src/components/EventsPage.tsx:13-16 | the empty search term matches every field |
| `Text.MatchesTermIgnoresCase` | src/components/OrganizationsPage.tsx:22-23 | the search test gives the same answer on lowered text and term: it ignores case on both sides |
| `Text.TrimStart` | src/components/PollsPage.tsx:18 | the result is a suffix of the input, every dropped character is white space, the result is empty exactly when the input is all white space, and otherwise it starts with a non-white-space character |
| `Text.TrimEnd` | src/components/PollsPage.tsx:18 | the result is a prefix of the input, every dropped character is white space, the result is empty exactly when the input is all white space, and otherwise it ends with a non-white-space character |
| `Text.TrimEmptyIffBlank` | src/components/PollsPage.tsx:18 | `option.trim() !== ''` holds exactly when the option has a character that is not white space |
| `Lists.MapWhere` | src/components/EventsPage.tsx:20-24 | same length; selected elements are rewritten, all others are kept |
| `Lists.Filter` | src/components/MarketplacePage.tsx:68-71 | an order-preserving subsequence whose elements all pass, holding every passing element as often as the input does |
| `Lists.FilterMembership` | src/components/OrganizationsPage.tsx:21-24 | an element is in the filtered list exactly when it is in the list and passes |
| `Lists.FilterAll` | src/components/EventsPage.tsx:13-16 | a filter that every element passes returns the list unchanged |
| `Polls.CanCreateIff` | src/components/PollsPage.tsx:18 | creation is accepted exactly when the question and the end time are non-empty and no option is blank |
| `Polls.Zeros` | src/components/PollsPage.tsx:23 | `n` entries, all zero |
| `Polls.SumOfZeros` | src/components/PollsPage.tsx:23 | all-zero tallies sum to zero |
| `Polls.NewPoll` | src/components/PollsPage.tsx:19-27 | the new poll copies question, options and end time; it has one zero tally per option, total 0, the given id and time, and creator "Current User" |
| `Polls.SumOfIncrement` | src/components/PollsPage.tsx:37 | incrementing one tally raises the total by exactly 1 |
| `Polls.VoteFor` | src/components/PollsPage.tsx:36-38 | only the tallies of the poll change: the chosen one grows by 1, every other one and their number stay the same, and the total grows by 1 |
| `Polls.Voted` | src/components/PollsPage.tsx:33-42 | same length and order; polls with another id unchanged; in each poll with the id, the chosen tally grows by 1, the other tallies and all other fields are unchanged, and the total grows by 1 |
| `Polls.VotedKeepsShape` | src/components/PollsPage.tsx:34-41 | voting keeps ids and well-formedness (one tally per option), and the same vote can be cast again |
| `Polls.VotedTimes` | src/components/PollsPage.tsx:33-42 | repeated votes keep the list length, the ids and the number of tallies |
| `Polls.RepeatedVotesAccumulate` | src/components/PollsPage.tsx:33-42 | with no voter or deadline check, `n` votes for an option add exactly `n` to its tally and to the poll's total |
| `Polls.CreateAndVoteKeepWellFormed` | src/components/PollsPage.tsx:17-42 | creating and voting keep every poll with one tally per option |
| `Polls.PollsPage.constructor` | src/components/PollsPage.tsx:11-15 | the form starts with an empty question, two empty options and an empty end time |
| `Polls.PollsPage.CreatePoll` | src/components/PollsPage.tsx:17-31 | a rejected form leaves the list and the form unchanged; an accepted one appends exactly one new poll at the end (with at least two options), keeps the earlier polls in order, and resets the form; the form keeps at least two options |
| `Polls.PollsPage.Vote` | src/components/PollsPage.tsx:33-42 | the list becomes `Voted` of the old list (tallies copied and incremented in place); the form is untouched |
| `Polls.PollsPage.AddOption` | src/components/PollsPage.tsx:73 | appends one empty option and changes nothing else |
| `Polls.PollsPage.EditOption` | src/components/PollsPage.tsx:64-68 | replaces exactly one option of the form and changes nothing else |
| `Events.HandleAttend` | src/components/EventsPage.tsx:18-26 | same length and order; events with other ids unchanged; the toggled event flips `isAttending`, moves `attendees` down by 1 if it was attending and up by 1 otherwise, and keeps every other field |
| `Events.HandleAttendInvolution` | src/components/EventsPage.tsx:18-26 | toggling twice with the same id restores the list exactly |
| `Events.HandleAttendKeepsOtherAttendees` | src/components/EventsPage.tsx:22 | `attendees - (isAttending ? 1 : 0)` is the same before and after, for every event |
| `Events.HandleAttendAbsentId` | src/components/EventsPage.tsx:20-24 | an id no event carries leaves the list unchanged |
| `Events.FilteredEvents` | src/components/EventsPage.tsx:13-16 | an order-preserving subsequence holding exactly the events whose name or description contains the term ignoring case, each as often as in the list |
| `Events.FilteredEventsEmptyTerm` | src/components/EventsPage.tsx:13-16 | an empty search term keeps every event |
| `Organizations.HandleFollow` | src/components/OrganizationsPage.tsx:26-32 | same length and order; other organizations unchanged; the target flips `isFollowing` and keeps every other field; `followers` never changes |
| `Organizations.HandleFollowInvolution` | src/components/OrganizationsPage.tsx:26-32 | following twice with the same id restores the list exactly |
| `Organizations.FilteredOrganizations` | src/components/OrganizationsPage.tsx:21-24 | an order-preserving subsequence holding exactly the organizations whose name or handle contains the term ignoring case |
| `Organizations.FilteredOrganizationsEmptyTerm` | src/components/OrganizationsPage.tsx:21-24 | an empty search term keeps every organization |
| `Organizations.RecentPosts` | src/components/OrganizationsPage.tsx:106 | an order-preserving subsequence holding exactly the posts whose handle equals the organization's, each as often as in the list |
| `Organizations.OrganizationsPage.constructor` | src/components/OrganizationsPage.tsx:17-19 | empty search term, nothing selected, About tab |
| `Organizations.OrganizationsPage.OrgClick` | src/components/OrganizationsPage.tsx:34-37 | selects the organization and resets the tab to About |
| `Organizations.OrganizationsPage.Back` | src/components/OrganizationsPage.tsx:176 | clears the selection and keeps the tab |
| `Livestreams.NewLivestream` | src/components/LivestreamPage.tsx:20-29 | the four form fields round-trip through the record; organization 1, no viewers, status upcoming |
| `Livestreams.GuardDoesNotTrimOrOrder` | src/components/LivestreamPage.tsx:19 | a form of white-space text and an end time before the start time is accepted |
| `Livestreams.LivestreamPage.constructor` | src/components/LivestreamPage.tsx:11-16 | the form starts with four empty fields |
| `Livestreams.LivestreamPage.CreateLivestream` | src/components/LivestreamPage.tsx:18-33 | an incomplete form leaves list and form unchanged; a complete one appends exactly one livestream built from it at the end and clears the four fields |
| `Marketplace.WithId` | src/components/MarketplacePage.tsx:41 | the product carries the given id and exactly the draft's fields (round trip through `DraftOf`) |
| `Marketplace.NewOrder` | src/components/MarketplacePage.tsx:52-60 | the order names the product's id and seller, is processing, and carries the payment method, the buyer placeholder, the id and the time |
| `Marketplace.FilteredProducts` | src/components/MarketplacePage.tsx:68-71 | an order-preserving subsequence holding exactly the products whose name contains the term ignoring case and whose category is the selected one, or any category when "all" is selected |
| `Marketplace.FilteredProductsShowAll` | src/components/MarketplacePage.tsx:68-71 | an empty term with "all" selected shows every product |
| `Marketplace.MarketplacePage.constructor` | src/components/MarketplacePage.tsx:10-16 | no products or orders, empty term, category "all", dialog hidden, nothing selected |
| `Marketplace.MarketplacePage.AddProduct` | src/components/MarketplacePage.tsx:40-43 | appends exactly one product, the draft with the given id, and changes nothing else |
| `Marketplace.MarketplacePage.BuyProduct` | src/components/MarketplacePage.tsx:45-48 | selects the product and opens the payment dialog |
| `Marketplace.MarketplacePage.PaymentComplete` | src/components/MarketplacePage.tsx:50-66 | without a selection nothing changes; with one, appends exactly one order for it, hides the dialog and clears the selection |
| `Marketplace.MarketplacePage.ClosePaymentModal` | src/components/MarketplacePage.tsx:137 | hides the dialog and keeps the selected product |
| `Profile.ProfileOf` | src/components/ProfilePage.tsx:19-30 | name, handle and avatar come from the ranking; the follower figures are fixed at 250 and 1000 |
| `Profile.UserPosts` | src/components/ProfilePage.tsx:32 | an order-preserving subsequence of the posts; every post in it has the profile's handle, and every post with that handle is in it as often as in the list |
| `Profile.ShownOrganizations` | src/components/ProfilePage.tsx:97 | at most four organizations, the first ones of the list in order, and all of them when there are fewer than four |

## Left out

- Rendering, CSS classes, icons and the tab buttons of the Organizations, Marketplace and Profile pages: presentation only.
- The `onChange` handlers that write one form field or the search and category boxes: single field writes. The option editor, which copies the options and writes one entry, is modelled.
- The poll percentage bar (src/components/PollsPage.tsx:107): floating-point arithmetic, and NaN when a poll has no votes.
- `Date.now()` and `new Date()`: ids and timestamps are parameters. `toLocaleString` date formatting is not modelled.
- `Text.LowerStr`: lowers ASCII letters only. JavaScript's `toLowerCase` also lowers other Unicode letters. JavaScript strings are UTF-16 code units; here a string is a sequence of Unicode scalar values.
- `Polls.Voted`: requires the option index to exist in every poll with that id, which the vote buttons ensure for well-formed polls with distinct ids. For an index outside the tallies, JavaScript would store NaN or grow the array with holes; that is not modelled.
- The mock data loaded in the Marketplace's `useEffect` and the `console.log` of the event share button: I/O stubs.
- Components whose source is not shown (Tweet, ProductList, ProductForm, OrderManagement, PaymentGateway, ProjectManagementPage). src/types/marketplace is not part of this model: the Product and Order fields are the ones the page reads and writes. Order status values other than "processing" and "shipped" are unknown.
- The untyped `replies` list of a post is not carried, and prices are integers.
- The profile's organization cards read `org.description`, which the Organization record does not declare: rendering only.
- Routing, the sidebars and the no-op like, share and comment callbacks of src/App.tsx, and the fixed leaderboard of src/components/RankingPage.tsx: no logic to model.
- React's batching of state updates: each handler is modelled as running once on the current state, with its writes applied in order.
