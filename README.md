# GrooveHire booking logic in Dafny

GrooveHire connects clients in Nairobi with local service providers: plumbers, electricians, cleaners, tutors, mechanics and painters. Its back end runs a WhatsApp bot. The bot moves each phone number's session through a fixed chain of states:

welcome → service selection → location → provider selection → booking details → payment → completed.

It works against an in-memory store of sessions, bookings and providers, ranks the providers it offers, and starts an M-Pesa STK push for the booking fee. The web front end has these parts:
- a chat simulator with canned keyword replies;
- a freelancer sign-up / sign-in form;
- a portfolio editor;
- a three-step client booking page.

This project models each of these pieces in Dafny, one module per source file:

| module | file | source |
|---|---|---|
| `Store` | store.dfy | backend/database.py |
| `Matching` | matching.dfy | backend/services.py (ranking, phone-number rewrite, STK push outcome) |
| `Bot` | bot.dfy | backend/bot_logic.py (handlers as pure steps, and the bot class that writes them to the store) |
| `BotProperties` | bot_properties.dfy | properties of the bot: one-stage moves, selection priorities, whole conversations |
| `Chat` | chat.dfy | src/pages/ChatInterface.tsx |
| `Auth` | auth.dfy | src/components/AuthModal.tsx |
| `Portfolio` | portfolio.dfy | src/components/PortfolioModal.tsx |
| `Wizard` | wizard.dfy | src/pages/ClientBooking.tsx |
| `Text`, `Wrappers` | text.dfy, wrappers.dfy | string helpers (ASCII case, Python and JavaScript whitespace, strip, split, title, substring) and `Option` |

Some parts of the source change state step by step. These are classes whose methods are specified against pure functions:
- the database and the bot;
- the chat log;
- the forms;
- the wizard.

The pure parts are functions, and lemmas state what they promise. These pure parts include:
- the handlers' decisions;
- the ranking;
- the validator;
- the list updates.

Some values come from outside the program. They are parameters:
- the clock (`datetime.now()`, `Date.now()`, the time of day shown in the chat);
- the random choice of a stock picture;
- the M-Pesa gateway's answers;
- the environment's credentials;
- whether the browser stored the user.

Ratings and distances are integers in tenths (4.8 is 48, "2.1 km" is 21).

## Model

| member | source | states |
|---|---|---|
| Store.Database.constructor | backend/database.py:11-16 | the store starts with no sessions and no bookings, and with the sample provider catalogue |
| Store.Database.GetUserSession | backend/database.py:145-147 | returns the stored session for the phone number, and nothing exactly when none is stored |
| Store.Database.CreateUserSession | backend/database.py:149-153 | stores the session under its own phone number, replacing any earlier one; bookings are untouched |
| Store.Database.UpdateUserSession | backend/database.py:155-159 | merges the updates into an existing session, so keys not given keep their values; other sessions are unchanged; an unknown phone changes nothing |
| Store.Database.FindUserByPaymentReference | backend/database.py:161-166 | returns the first session, in insertion order, whose payment reference equals the argument; returns none exactly when no session has it |
| Store.Database.CreateBooking | backend/database.py:168-172 | stores the booking under its id; other bookings and the sessions are untouched |
| Store.Database.FilterProvidersByLocation | backend/database.py:179-188 | the loop returns the providers serving the location in original order, or the whole input when none does |
| Store.AtLocationAppend | backend/database.py:184-186 | filtering distributes over concatenation, so the original order is kept |
| Store.AtLocationMembers | backend/database.py:184-186 | a provider is kept exactly when it is in the input and lists the location among its areas, ignoring case |
| Store.FilterKeepsServing | backend/database.py:179-188 | when some provider serves the location, exactly those providers are returned |
| Store.FilterFallsBack | backend/database.py:179-188 | when no provider serves the location, the input list is returned unchanged |
| Store.FilterIgnoresCase | backend/database.py:181-185 | the location's case does not matter |
| Store.ProvidersByServiceProperties | backend/database.py:174-177 | the lookup is by lower-cased name, so the name's case does not matter; an unknown service gives no providers |
| Matching.RankSorts | backend/services.py:27-30 | the ranking is ordered by rating descending, then distance ascending |
| Matching.RankPermutes | backend/services.py:27-30 | the ranking is a permutation of its input |
| Matching.RankStable | backend/services.py:27-30 | providers with equal keys keep their relative order (Python's sort is stable) |
| Matching.FindProvidersAtMostThree | backend/services.py:32 | at most three providers are returned |
| Matching.FindProvidersTopRanked | backend/services.py:17-32 | the result is ranked, holds min(3, n) of the n providers of the location-filtered list for the service, each taken from that list, and no provider left out ranks before one returned |
| Matching.FindProvidersAllWhenFew | backend/services.py:21-32 | with three or fewer candidates, the result is a permutation of all of them |
| Matching.FindProvidersNonEmpty | backend/services.py:21-32 | the result is empty exactly when the service has no providers at all, because the location filter falls back to all of them |
| Matching.FindProvidersWithoutService | backend/services.py:34-36 | the exception path (no service name to lower-case) yields no providers |
| Matching.NormalizeMsisdnCases | backend/services.py:111-116 | "254…" is unchanged, "0…" becomes "254" + the rest, "+254…" loses the "+", and any other number is unchanged |
| Matching.NormalizeMsisdnIdempotent | backend/services.py:111-116 | rewriting twice is rewriting once, and the three known prefixes all end up starting with "254" |
| Matching.StkPushUnconfiguredFails | backend/services.py:84-103 | as written, without all four credentials the push fails with "Payment error: cannot access local variable 'datetime' where it is not associated with a value" and sends no request (see Findings) |
| Matching.StkPushSimulated | backend/services.py:84-90 | with the import of line 103 hoisted, the push without all four credentials succeeds with a simulated `ws_CO_` checkout id stamped at the push's time, and sends no request |
| Matching.StkPushSucceedsIff | backend/services.py:84-157 | the push succeeds exactly when the credentials are set, a token was obtained and the endpoint accepted the request, or, with the import hoisted only, when the credentials are not set |
| Matching.StkPushConfigured | backend/services.py:92-157 | with credentials, the written and the hoisted text behave alike: a request goes out exactly when a token was obtained; it carries the rewritten number; success means the endpoint accepted it |
| Bot.LocationOutcomeCases | backend/bot_logic.py:150-187 | a usable location writes the location and the next state; the (at most three) providers are added when some are found; without a service name the reply is the error reply |
| Bot.MergeTwice | backend/bot_logic.py:392-395 | two stamped merges in a row equal one stamped merge of both sets of updates |
| Bot.GrooveHireBot.constructor | backend/bot_logic.py:12-15 | the bot shares the given store and credentials |
| Bot.GrooveHireBot.UpdateUserSession | backend/bot_logic.py:392-395 | stamps `last_interaction` on the updates and merges them into the stored session |
| Bot.GrooveHireBot.GetUserSession | backend/bot_logic.py:376-390 | returns the stored session; for an unknown phone it stores and returns a new welcome session |
| Bot.GrooveHireBot.HandleWelcome | backend/bot_logic.py:69-90 | writes the welcome step: service selection next |
| Bot.GrooveHireBot.HandleServiceSelection | backend/bot_logic.py:92-143 | writes the service step's updates (nothing when no service matched) and answers its reply |
| Bot.GrooveHireBot.HandleLocationRequest | backend/bot_logic.py:145-195 | writes the location and the next state, then the provider list when it is not empty |
| Bot.GrooveHireBot.RecordLocation | backend/bot_logic.py:150-187 | stores the location and the next state, then the providers when there are any, as the location step says |
| Bot.GrooveHireBot.HandleProviderSelection | backend/bot_logic.py:197-231 | writes the chosen provider and the next state for a valid choice, nothing otherwise |
| Bot.GrooveHireBot.HandleBookingDetails | backend/bot_logic.py:233-257 | writes the details and the payment state |
| Bot.GrooveHireBot.HandlePayment | backend/bot_logic.py:259-300 | writes the payment step for the outcome of the push as written, so without credentials "pay" fails and changes nothing |
| Bot.GrooveHireBot.RunHandler | backend/bot_logic.py:47-63 | runs the handler that the session's state selects |
| Bot.GrooveHireBot.ProcessMessage | backend/bot_logic.py:38-67 | the store afterwards holds, for the phone, the session that one normalised step gives; nothing else changes |
| BotProperties.NormalizeIdempotent | backend/bot_logic.py:45 | stripping and lower-casing twice is doing it once |
| BotProperties.StepIgnoresCase | backend/bot_logic.py:45 | the handlers see neither the message's case nor its surrounding blanks |
| BotProperties.DispatchFollowsState | backend/bot_logic.py:47-61 | each state other than completed runs its own handler |
| BotProperties.DispatchDefaultsToWelcome | backend/bot_logic.py:47-63 | the welcome handler runs exactly when the state is missing, "welcome" or unrecognised |
| BotProperties.RespondMovesOneStage | backend/bot_logic.py:47-300 | each handler writes no state, the next stage, or (payment on "back") the details stage |
| BotProperties.StepMovesOneStage | backend/bot_logic.py:38-63 | one message never skips a stage |
| BotProperties.NewPhoneIsGreeted | backend/bot_logic.py:376-390 | an unknown phone is stored with its number and profile name, is greeted, and moves to service selection |
| BotProperties.CompletedStartsOver | backend/bot_logic.py:62-63 | after a completed booking the next message is greeted and starts over at service selection |
| BotProperties.WelcomeResponds | backend/bot_logic.py:69-77 | in the welcome state any message is greeted, and the stored session moves to service selection with a fresh `last_interaction` |
| BotProperties.ByKeyFinds | backend/bot_logic.py:97-98 | a menu key matches only a service whose key is the whole message |
| BotProperties.ByNameFirstMatch | backend/bot_logic.py:101-104 | name matching picks the first service, in table order, whose lower-cased name occurs in the message |
| BotProperties.ByKeywordFirstGroup | backend/bot_logic.py:106-119 | the keyword groups are tried in order, and the first group with a word in the message decides |
| BotProperties.ByKeywordNone | backend/bot_logic.py:106-119 | no keyword service is chosen exactly when no group has a word in the message |
| BotProperties.SelectServiceNone | backend/bot_logic.py:97-119 | selection fails exactly when the message is no key, names no service and holds no keyword; a selected service is a listed one |
| BotProperties.ServiceSelectionAdvances | backend/bot_logic.py:121-126 | the session moves to the location state exactly when a service was selected, and records its name |
| BotProperties.SelectByMenuNumber | backend/bot_logic.py:97-98 | "3" selects cleaning |
| BotProperties.SelectServicePriority | backend/bot_logic.py:97-119 | a key beats a name, which beats the keyword groups |
| BotProperties.FirstAreaFirstMatch | backend/bot_logic.py:365-368 | the area found is the first one in list order that occurs in the message |
| BotProperties.ExtractLocationCases | backend/bot_logic.py:356-374 | a known area gives that area title-cased; otherwise a message of at most three words gives itself title-cased; otherwise nothing; the location is empty only for the empty message |
| BotProperties.LocationStepOutcome | backend/bot_logic.py:145-195 | the session moves to provider selection exactly when a non-empty location was extracted; the offered providers, at most three, are the ones stored |
| BotProperties.LocationOffersProviders | backend/bot_logic.py:158-172 | a service that has providers always gets some offered |
| BotProperties.ParseIntDecimal | backend/bot_logic.py:200 | `int()` reads back what `str()` writes, with or without a sign |
| BotProperties.ParseIntAccepts | backend/bot_logic.py:199-200 | `int()` accepts exactly an optional sign followed by digits |
| BotProperties.ProviderSelectionOutcome | backend/bot_logic.py:199-231 | a reply of 1 to 3 within the stored list picks that provider and moves on; anything else leaves the session as it was |
| BotProperties.ChoosingAnOfferedProvider | backend/bot_logic.py:201-210 | replying with an offered provider's position books that provider |
| BotProperties.BookingDetailsOutcome | backend/bot_logic.py:236-246 | any message is stored as the details and payment is next; the estimate is twice the provider's rate |
| BotProperties.RemovePlusKeepsTheRest | backend/bot_logic.py:265 | the push goes to the number with every "+" removed and nothing else changed |
| BotProperties.PaymentOutcome | backend/bot_logic.py:261-300 | "pay" with a successful push completes the booking with the checkout id; a failed push changes nothing; "back" returns to the details; any other input changes nothing |
| BotProperties.PaymentUnconfiguredFails | backend/bot_logic.py:261-287 | as written, without M-Pesa credentials "pay" writes nothing and answers the push's unbound-`datetime` error |
| BotProperties.PaymentSimulatedCompletes | backend/bot_logic.py:261-274 | with the push's import hoisted, without M-Pesa credentials "pay" always completes the booking with the reference `ws_CO_` stamped at that message's time |
| BotProperties.ConverseReplays | backend/bot_logic.py:38-63 | once the phone has a stored session, a conversation, each message handled at its own time and with its own gateway answers, replaces only that session |
| BotProperties.GetApplied | backend/bot_logic.py:392-395 | a written field takes the written value, and any other field keeps its value |
| BotProperties.ServiceApplied | backend/bot_logic.py:121-126 | a selected service is stored with the location state |
| BotProperties.LocationApplied | backend/bot_logic.py:150-172 | a location with providers is stored with the provider state and the providers offered, and the service is kept |
| BotProperties.ProviderApplied | backend/bot_logic.py:204-210 | a chosen provider is stored with the details state |
| BotProperties.DetailsApplied | backend/bot_logic.py:236-239 | the details are stored with the payment state |
| BotProperties.PayApplied | backend/bot_logic.py:270-274 | a successful push stores its checkout id as the reference with the completed state and keeps the rest |
| BotProperties.AfterInServiceSelection | backend/bot_logic.py:52-53 | in service selection, a message applies the service step |
| BotProperties.AfterInLocationRequest | backend/bot_logic.py:54-55 | in the location state, a message applies the location step |
| BotProperties.AfterInProviderSelection | backend/bot_logic.py:56-57 | in provider selection, a message applies the provider step |
| BotProperties.AfterInBookingDetails | backend/bot_logic.py:58-59 | in the details state, a message applies the details step |
| BotProperties.AfterInPayment | backend/bot_logic.py:60-61 | in the payment state, a message applies the payment step |
| BotProperties.WalkService | backend/bot_logic.py:121-126 | a reply that selects a service records it and moves to the location state |
| BotProperties.WalkLocation | backend/bot_logic.py:150-172 | a recognised location, for a service with providers, stores the location and the providers and moves on |
| BotProperties.WalkProvider | backend/bot_logic.py:199-210 | replying with a stored provider's position books it, and service and location are kept |
| BotProperties.WalkDetails | backend/bot_logic.py:236-239 | the normalised details are stored and payment is next; the choices are kept |
| BotProperties.WalkPay | backend/bot_logic.py:261-287 | "pay" with a successful push completes the booking with the checkout id and keeps the choices; with a failed push the session is left as it was and the reply is the push's error |
| BotProperties.OneNormalized | backend/bot_logic.py:97-98 | "1" is the plumbing key |
| BotProperties.PayNormalized | backend/bot_logic.py:261 | "PAY" reaches the payment handler as "pay" |
| BotProperties.SampleHasPlumbers | backend/database.py:18-24 | the sample catalogue lists plumbers |
| BotProperties.WestlandsNormalized | backend/bot_logic.py:45 | "Westlands" reaches the handler as "westlands" |
| BotProperties.WestlandsIsALocation | backend/bot_logic.py:356-368 | "westlands" is extracted as the location "Westlands" |
| BotProperties.WestlandsIsAnArea | backend/bot_logic.py:359-368 | "westlands" is the first area in the list |
| BotProperties.WestlandsTitled | backend/bot_logic.py:368 | "westlands" title-cased is "Westlands" |
| BotProperties.AfterKeepsKeys | backend/bot_logic.py:392-395 | handling a message never removes a key from the session |
| BotProperties.ServiceThenLocation | backend/bot_logic.py:92-172 | a service reply, then a location reply, lead to provider selection with the providers offered stored and the reference kept; the rest of the conversation goes on from there |
| BotProperties.FirstProviderThenPay | backend/bot_logic.py:197-287 | from provider selection, "1", any details and "pay" book the first offered provider with the details; the booking completes with the checkout id when the push at "pay" succeeds, and otherwise waits for payment with its earlier reference and answers the push's error |
| BotProperties.SampleReplies | backend/test_bot.py:28-32 | what the test script's replies mean to the handlers |
| BotProperties.BookingReplay | backend/bot_logic.py:92-287 | from service selection, five suitable replies record a booking of the first offered provider, settled as the push at the last reply answers |
| BotProperties.BookingFromOffer | backend/bot_logic.py:197-287 | from the offer for a service and location, "1", any details and "pay" record the booking of the first provider offered, settled as the push answers |
| BotProperties.NewPhoneConverse | backend/bot_logic.py:38-63 | from a new phone the first message is greeted, leaving no reference, and the rest of the conversation is replayed from service selection, replacing only that phone's session |
| BotProperties.NewPhoneBooking | backend/bot_logic.py:38-287 | a new phone that sends anything and then five suitable replies has a booking of the first offered provider with its details recorded; it completes with the checkout id when the last push succeeds, and otherwise waits for payment with no reference and answers the push's error |
| BotProperties.SampleConversationStalls | backend/test_bot.py:26-33 | as the repository is written, the test conversation (Hi, 1, Westlands, 1, details, PAY) from a new phone without credentials records plumbing in Westlands, the first plumber and the details, but ends waiting for payment with no reference, and "PAY" is answered with the payment error |
| BotProperties.SampleConversationBooks | backend/test_bot.py:26-33 | with the push's import hoisted, the same conversation ends completed: plumbing in Westlands, the first plumber offered, the details stored and the reference `ws_CO_` stamped at the time of "PAY" |
| Chat.ReplyIsFirstMatch | src/pages/ChatInterface.tsx:37-53 | the if-else chain is the rule table read top to bottom |
| Chat.FirstMatchIsEarliest | src/pages/ChatInterface.tsx:37-53 | the table's choice is the earliest matching rule, and the fallback only when none matches |
| Chat.FallbackIffNoKeyword | src/pages/ChatInterface.tsx:37-53 | the reply is the fallback exactly when the lower-cased message has no keyword of any rule |
| Chat.EarliestRuleWins | src/pages/ChatInterface.tsx:37-46 | "plumbing in westlands" matches the location rule too, but gets the plumbing prompt |
| Chat.FallbackWithoutKeyLetters | src/pages/ChatInterface.tsx:51-53 | a message without the letters l, u, w, m, b, y and o gets the fallback |
| Chat.CarRepairFallsBack | src/pages/ChatInterface.tsx:27 | the quick reply "Car repair" gets the fallback |
| Chat.PaintingFallsBack | src/pages/ChatInterface.tsx:28 | the quick reply "Painting" gets the fallback |
| Chat.PlumbingReply | src/pages/ChatInterface.tsx:37-38 | "plumbing" anywhere, in any case, gives the plumbing prompt |
| Chat.ElectricalReply | src/pages/ChatInterface.tsx:39-40 | "electrical" in a message that cannot hold "plumbing" gives the electrical prompt |
| Chat.CleaningReply | src/pages/ChatInterface.tsx:41-42 | "cleaning" in a message that cannot hold an earlier keyword gives the cleaning prompt |
| Chat.TutoringReply | src/pages/ChatInterface.tsx:43-44 | "tutoring" in a message that cannot hold an earlier keyword gives the tutoring prompt |
| Chat.PlumbingQuickReply | src/pages/ChatInterface.tsx:23 | the quick reply "Plumbing" gets the plumbing prompt |
| Chat.ElectricalQuickReply | src/pages/ChatInterface.tsx:24 | the quick reply "Electrical work" gets the electrical prompt |
| Chat.CleaningQuickReply | src/pages/ChatInterface.tsx:25 | the quick reply "House cleaning" gets the cleaning prompt |
| Chat.TutoringQuickReply | src/pages/ChatInterface.tsx:26 | the quick reply "Tutoring" gets the tutoring prompt |
| Chat.NumberedIdsDistinct | src/pages/ChatInterface.tsx:55-56 | numbering entries by log length gives distinct ids |
| Chat.ChatSession.constructor | src/pages/ChatInterface.tsx:7-11 | the log starts with exactly the greeting, numbered 1; the input is empty and nobody is typing |
| Chat.ChatSession.SetInputMessage | src/pages/ChatInterface.tsx:10 | typing changes only the input box |
| Chat.ChatSession.SimulateBotResponse | src/pages/ChatInterface.tsx:31-34 | schedules one reply and sets the typing flag |
| Chat.ChatSession.HandleSendMessage | src/pages/ChatInterface.tsx:65-78 | blank input changes nothing; otherwise it appends one user entry holding the untrimmed text, numbered by log length, schedules its reply and clears the input |
| Chat.ChatSession.HandleQuickReply | src/pages/ChatInterface.tsx:80-90 | appends the label as a user entry without any check and schedules its reply |
| Chat.ChatSession.DeliverReply | src/pages/ChatInterface.tsx:34-61 | appends the bot's reply to the oldest scheduled message, numbered by log length, and clears the typing flag |
| Auth.SetField | src/components/AuthModal.tsx:34 | only the named field changes |
| Auth.MessageText | src/components/AuthModal.tsx:43-70 | every error text is non-empty |
| Auth.CredentialErrorsKeys | src/components/AuthModal.tsx:43-53 | the email error is "required" when the email is empty and "invalid" when no part of it matches `\S+@\S+\.\S+`; the password error is "required" when empty and "too short" under 6 characters |
| Auth.SignUpErrorsKeys | src/components/AuthModal.tsx:55-71 | sign-up adds an error, with its text, for an empty full name, phone, category or location, and for differing passwords |
| Auth.ValidationErrors | src/components/AuthModal.tsx:40-75 | which keys the error record has and what each says, field by field, in both modes |
| Auth.ValidIffAcceptable | src/components/AuthModal.tsx:73-74 | the form is valid (no error keys) exactly when every rule of its mode holds |
| Auth.SignInChecksCredentialsOnly | src/components/AuthModal.tsx:55 | signing in checks only email and password, and no other field affects the result |
| Auth.EmailLikeInContext | src/components/AuthModal.tsx:45 | the pattern is unanchored: text around a matching email still matches |
| Auth.EmailLikeShape | src/components/AuthModal.tsx:45 | a matching email has an '@', a '.' and at least five characters |
| Auth.ShortestEmail | src/components/AuthModal.tsx:45 | "a@b.c" matches |
| Auth.BlankAfterAt | src/components/AuthModal.tsx:45 | "a@ b.c" does not match |
| Auth.UserRecord | src/components/AuthModal.tsx:87-99 | the record copies the form's details; sign-up starts from rating, jobs and earnings 0; sign-in has a 4.8 rating, 89 jobs and 45600 earnings; both have an empty portfolio |
| Auth.AuthForm.constructor | src/components/AuthModal.tsx:13-25 | the form starts empty, without errors and not loading |
| Auth.AuthForm.HandleInputChange | src/components/AuthModal.tsx:32-38 | only the named field takes the value, and only that field's existing error is blanked (its key stays) |
| Auth.AuthForm.HandleSubmit | src/components/AuthModal.tsx:77-82 | records the validator's errors; an invalid form stops before loading or storage; a valid one starts loading and captures the form as submitted |
| Auth.AuthForm.FinishSubmit | src/components/AuthModal.tsx:84-109 | stores and hands on the user record built from the form as it was at submit, whatever was typed since, or on failure leaves only the general error; loading ends either way |
| Portfolio.SetField | src/components/PortfolioModal.tsx:47-50 | only the named field changes |
| Portfolio.NewItemId | src/components/PortfolioModal.tsx:56 | the edited item's id is kept unless there is none or it is 0, when the timestamp is used |
| Portfolio.ImageFor | src/components/PortfolioModal.tsx:38-45 | a non-empty image URL is kept, and an empty one becomes one of the six stock pictures |
| Portfolio.ReplaceByIdPointwise | src/components/PortfolioModal.tsx:67-69 | replacing keeps the length and every item, except that each item with the id becomes the new item |
| Portfolio.ReplaceAbsentId | src/components/PortfolioModal.tsx:67-69 | replacing an id that no item has changes nothing |
| Portfolio.DeleteByIdAppend | src/components/PortfolioModal.tsx:92 | deleting distributes over concatenation, so the order is kept |
| Portfolio.DeleteByIdMembers | src/components/PortfolioModal.tsx:92 | nothing with the id is left, and everything else is kept |
| Portfolio.DeleteAbsentId | src/components/PortfolioModal.tsx:91-94 | deleting an id that no item has leaves the list unchanged |
| Portfolio.DeleteByIdIdempotent | src/components/PortfolioModal.tsx:91-94 | deleting twice is deleting once |
| Portfolio.AddThenDelete | src/components/PortfolioModal.tsx:70-72 | adding an item under a fresh id and then deleting that id gives the list back |
| Portfolio.AddAppends | src/components/PortfolioModal.tsx:70-72 | adding appends at the end and keeps the earlier items in place |
| Portfolio.EditReplaces | src/components/PortfolioModal.tsx:66-69 | an edit changes exactly the items with the edited id, into the new item, and keeps the length |
| Portfolio.PortfolioEditor.constructor | src/components/PortfolioModal.tsx:27-36 | the editor starts with an empty, closed form and nothing being edited |
| Portfolio.PortfolioEditor.HandleInputChange | src/components/PortfolioModal.tsx:47-50 | only the named form field changes |
| Portfolio.PortfolioEditor.SelectSampleImage | src/components/PortfolioModal.tsx:109-111 | only the image URL changes |
| Portfolio.PortfolioEditor.OpenNew | src/components/PortfolioModal.tsx:134 | the add button opens the form |
| Portfolio.PortfolioEditor.ResetForm | src/components/PortfolioModal.tsx:96-107 | the form is empty and closed, with nothing being edited; the list is kept |
| Portfolio.PortfolioEditor.HandleEdit | src/components/PortfolioModal.tsx:78-89 | the item's fields fill the form (a missing client name becomes ''), and the form opens |
| Portfolio.PortfolioEditor.HandleDelete | src/components/PortfolioModal.tsx:91-94 | every item with the id is removed |
| Portfolio.PortfolioEditor.HandleSubmit | src/components/PortfolioModal.tsx:52-76 | the form's item replaces the edited item or is appended, and then the form is reset |
| Wizard.Press | src/pages/ClientBooking.tsx:25-32 | choosing a service records it and goes to step 2; choosing a provider goes to step 3 and keeps the service; back goes one step down |
| Wizard.PressKeepsReachable | src/pages/ClientBooking.tsx:85-163 | every button offered on its step keeps the step in 1..3, with a service chosen from step 2 on |
| Wizard.RunKeepsReachable | src/pages/ClientBooking.tsx:85-256 | however the buttons are pressed, the step stays in 1..3 and a service is chosen from step 2 on |
| Wizard.BackThenForward | src/pages/ClientBooking.tsx:153-256 | going back from step 3 forgets nothing, and choosing a provider again returns to the same page |
| Wizard.Markers | src/pages/ClientBooking.tsx:43-72 | three step markers are drawn |
| Wizard.MarkersShowProgress | src/pages/ClientBooking.tsx:43-72 | marker n is highlighted exactly when the current step is at least n |
| Wizard.BookingWizard.constructor | src/pages/ClientBooking.tsx:7-8 | the page starts at step 1 with no service chosen |
| Wizard.BookingWizard.HandleServiceSelect | src/pages/ClientBooking.tsx:25-28 | records the service and goes to step 2 |
| Wizard.BookingWizard.HandleProviderSelect | src/pages/ClientBooking.tsx:30-32 | goes to step 3, ignores the provider id and keeps the service |
| Wizard.BookingWizard.GoBack | src/pages/ClientBooking.tsx:153 | goes from step 2 to 1 or from 3 to 2, keeping the chosen service |

## Findings

| source | as written | input that shows it | evidently intended | confidence | as-written member | corrected member |
|---|---|---|---|---|---|---|
| backend/services.py:84-103 | `from datetime import datetime` at line 103 makes `datetime` local to the whole function, so line 88 on the unconfigured path raises `UnboundLocalError`, which lines 153-157 turn into a failed push | no M-Pesa credentials, and "PAY" in the payment state | the simulated success of lines 84-90 with a `ws_CO_` id (the module already imports `datetime`) | high; not executed | Matching.StkPushUnconfiguredFails | Matching.StkPushSimulated |
| backend/test_bot.py:26-33 | the test conversation without credentials ends waiting for payment, answered "Payment error: cannot access local variable 'datetime' …" | the script's six messages from a new phone, without credentials | a completed booking with the simulated reference | high; not executed | BotProperties.SampleConversationStalls | BotProperties.SampleConversationBooks |

The push takes a `Revision`: `AsWritten` is the repository's text and `ImportHoisted` the corrected one. The bot class runs `AsWritten`; the conversation lemmas hold for both, and the corrected lemmas are proved for `ImportHoisted`.

## Left out

- Network and I/O: the FastAPI webhooks and Twilio replies (backend/main.py, backend/run.py), `send_whatsapp_message`, and the M-Pesa token and STK-push HTTP calls (backend/services.py:51-76). The gateway's answers (token, HTTP status, checkout id) are a parameter.
- `handle_payment_callback` and the bot's `create_booking` (backend/bot_logic.py:302-354, 397-415): they are reached only from the payment webhook and its notification text. The store's `create_booking` is modelled.
- The base64 password of the STK payload: it goes only to the HTTP request.
- The reply texts: they are tags carrying the data each mentions (emoji and f-string layout are not modelled).
- Exceptions in `process_message` come only from the two handler paths that index a missing value: a location reply without a stored service, and details without a provider. Those paths give the error reply. Exceptions from I/O are not modelled.
- `handle_payment`'s own `except` branch (backend/bot_logic.py:289-291) is not modelled: the push catches its own exceptions (backend/services.py:153-157). The one exception the model follows is the unbound `datetime` of the unconfigured path (see Findings); the others come from I/O and arrive as the gateway's outcome.
- Bot.GrooveHireBot.ProcessMessage: one message reads one clock. The source calls `datetime.now()` several times while it handles one message (backend/bot_logic.py:76, 268, 385-386, 394 and backend/services.py:88, 105); the model gives them all the same value, so for instance `created_at` equals `last_interaction` and the `BOOKING_` reference shares its second with the checkout stamp. Across messages each has its own time (`Moment`).
- Floating point: ratings and distances are integer tenths, and the sign-in rating 4.8 is 48. The progress-bar width `(currentStep / 3) * 100` is not modelled.
- Unicode: lower-casing, `str.title()` and whitespace follow ASCII plus the whitespace characters that Python and JavaScript name. JavaScript's `.length` counts UTF-16 units; the model counts characters.
- `int()`: BotProperties.ParseIntAccepts accepts an optional sign and ASCII digits, surrounded by nothing. It does not accept underscores between digits or non-ASCII digits, and it accepts strings of more than 4300 digits, which CPython 3.11 and later reject with a `ValueError`; a reply that long would then fall back to the choose-again reply.
- Timers: the 1.5 s delays in the chat and in the sign-in form are separate steps. In the chat, `DeliverReply` posts the oldest scheduled reply. In the form, `FinishSubmit` completes the submit.
- Time of day, `Date.now()` and `datetime.now()` are parameters, and so is `Math.random()`: `pick` is the chosen stock picture's index.
- Browser storage: the `freelancerUser` entry is a field of the form. Whether the write succeeded is a parameter, and that parameter stands for the `catch` branch. `onSuccess`/`onClose` are the returned user.
- `onUpdatePortfolio`: the parent passes the list back, so the editor holds it in its own field.
- `onModeChange`: a form has one mode for its lifetime.
- Browser form validation: the `required` attributes of the portfolio form (src/components/PortfolioModal.tsx:217, 231, 255, 283) and the `type="email"` email field of the sign-up / sign-in form (src/components/AuthModal.tsx:164) stop the browser from firing `onSubmit` for a form they reject. Portfolio.PortfolioEditor.HandleSubmit and Auth.AuthForm.HandleSubmit accept such forms (an empty title, for instance), which the page never submits.
- Presentation with no rules: AdminDashboard, FreelancerDashboard, StatsCard, ServiceCard, ChatMessage, Navbar, LandingPage, react-router, and the `wa.me` link.
- Aliasing: the handlers' session is the very dictionary the store holds. The model passes it by value and writes it back through the store.
- Chat.ChatSession.SimulateBotResponse: the chosen reply is computed when it is posted, not when it is scheduled. Both depend only on the message, so the result is the same.
