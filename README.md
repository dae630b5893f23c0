# FarmConnect, modelled in Dafny

FarmConnect is a marketplace where farmers list crops and retailers buy them.

- A retailer makes one offer per crop. The offer opens a chat with the farmer, where the price can be renegotiated.
- When the farmer accepts, the other pending offers on the crop are rejected and a transaction awaiting payment is recorded.
- The retailer pays. The farmer then shares their location until the delivery is marked complete, and the retailer confirms receipt.
- A small backend sends one-time passwords for password resets and checks payment-order requests.

This project models that core logic and proves properties about it. Each source file has its own module:

| module | file | source |
|---|---|---|
| `Basics` | `basics.dfy` | shared vocabulary: `Option`/`Result`, ids and timestamps, `find`/`filter`/count/sum, a stable descending sort, `slice`, decimal numerals, ASCII case and substring search |
| `Store` | `store.dfy` | `src/lib/store.ts` |
| `Otp` | `otp.dfy` | `otp-backend/index.js` |
| `ChatView` | `chat.dfy` | `src/components/Chat.tsx` |
| `ChatList` | `chatlist.dfy` | `src/components/ChatList.tsx` |
| `Delivery` | `tracker.dfy` | `src/components/LocationTracker.tsx` |
| `FarmerDashboard` | `farmer_dashboard.dfy` | `src/pages/farmer/Dashboard.tsx` |
| `RetailerDashboard` | `retailer_dashboard.dfy` | `src/pages/retailer/Dashboard.tsx` |
| `MyOffers` | `my_offers.dfy` | `src/pages/retailer/MyOffers.tsx` |
| `Profile` | `profile.dfy` | `src/pages/Profile.tsx` |
| `Register` | `register.dfy` | `src/pages/auth/Register.tsx` |
| `Routes` | `routes.dfy` | `src/App.tsx` |

The store is the class `Store.AppStore`:

- The document collections (users, crops, offers, chats, messages, transactions) are maps from id to record.
- The store's own fields (`user`, `crops`, `userOffers`, `chats`, `currentChat`, `messages`, `farmerTransactions`) are fields of the class that its methods reassign.
- New documents take their ids from a counter.
- A query lists matching documents in id order.
- A merge write of a status into an id that has no document creates a status-only document (`cropStubs`, `offerStubs`), as the document store does.
- A reference built from an empty id, or a record with an undefined field, fails as the database call would.

The OTP backend is the class `Otp.OtpService`, whose `otps` map the handlers update. The chat receipt loops update an `array` of messages. The delivery tracker is the class `Delivery.DeliveryTracker`, which holds the screen's status, sharing flag and watch id. Dashboards, filters, validators and the route guard are functions. The dashboard `forEach` loops that accumulate totals are methods with loop invariants, proved against fold functions.

Clocks and randomness are parameters: `now` is an integer number of milliseconds, and the month of a timestamp is a function `monthOf`. Responses of external services are also parameters: the mailer, the identity provider, the payment backend's replies and geolocation.

## Model

| member | source | states |
|---|---|---|
| Store.AppStore.constructor | src/lib/store.ts:56-64 | the store starts with nobody signed in, no crops, offers, chats, messages or transactions, and no current chat; only the given profiles exist |
| Store.AppStore.Logout | src/lib/store.ts:101-104 | the user, crops, offers, chats, current chat and messages are cleared; nothing else changes |
| Store.NewProfile | src/lib/store.ts:114-125 | a first sign-in profile is a retailer with the account's id; a missing email or name becomes '', a missing phone becomes null; the address is null |
| Store.AppStore.LoginWithGoogle | src/lib/store.ts:106-133 | an existing profile is loaded unchanged; otherwise the default profile is stored under the uid and becomes the user |
| Store.CropsVisibleToSpec | src/lib/store.ts:165-188 | `fetchCrops` lists only crops from the collection: for a farmer exactly their crops, for anyone else exactly the available crops |
| Store.AppStore.FetchCrops | src/lib/store.ts:165-188 | `crops` becomes the result of the crop query for the current user |
| Store.OffersVisibleToSpec | src/lib/store.ts:190-217 | no user sees no offers; a farmer sees exactly the offers on crops they grow; a retailer sees exactly the offers they made |
| Store.AppStore.FetchUserOffers | src/lib/store.ts:190-217 | `userOffers` becomes the result of the offer query for the current user |
| Store.ChatsVisibleToSpec | src/lib/store.ts:219-236 | no user sees no chats; a farmer sees exactly the chats where they are the farmer, a retailer exactly those where they are the retailer |
| Store.AppStore.FetchUserChats | src/lib/store.ts:219-236 | `chats` becomes the result of the chat query for the current user |
| Store.TransactionsVisibleToSpec | src/lib/store.ts:252-271 | anyone but a farmer sees no transactions; a farmer sees exactly the transactions on crops they grow |
| Store.AppStore.FetchFarmerTransactions | src/lib/store.ts:252-271 | `farmerTransactions` becomes the result of the transaction query for the current user |
| Store.IdsWhereSpec | src/lib/store.ts:201 | the ids a query returns are strictly increasing and are exactly the matching documents below the bound |
| Store.WhereMembers | src/lib/store.ts:172-174 | a query returns only matching documents of the collection, and every matching document below the bound |
| Store.NewCrop | src/lib/store.ts:280-292 | a new crop is available and owned by the farmer. A given quantity is kept, and the quantity is 0 exactly when none (or 0) was given. Each of name, description, unit, location and harvest date is the given text, or '' when it was left undefined. The price expectation and image are copied from the form |
| Store.AppStore.AddCrop | src/lib/store.ts:274-298 | a non-farmer gets Unauthorized and nothing is written; a farmer's crop is stored under a fresh id and returned |
| Store.AppStore.AddCropDoc | src/lib/store.ts:293 | `addDoc` stores the record under a fresh id, takes the next id and changes no other document |
| Store.AppStore.AddOfferDoc | src/lib/store.ts:331 | as `AddCropDoc`, for offers |
| Store.AppStore.AddChatDoc | src/lib/store.ts:467 | as `AddCropDoc`, for chats |
| Store.AppStore.AddMessageDoc | src/lib/store.ts:491 | as `AddCropDoc`, for messages |
| Store.AppStore.AddTransactionDoc | src/lib/store.ts:581 | as `AddCropDoc`, for transactions |
| Store.HasOfferSpec | src/lib/store.ts:315-318 | the duplicate check holds exactly when some offer, of any status, is on the crop by the retailer |
| Store.HasOfferWitness | src/lib/store.ts:315-318 | an existing offer of the retailer on the crop is always found by the duplicate check |
| Store.NewOffer | src/lib/store.ts:322-329 | a new offer is pending, by the retailer, for the crop and price given; an empty message is stored as null |
| Store.AppStore.MakeOffer | src/lib/store.ts:306-364 | a non-retailer gets Unauthorized, and a retailer with an earlier offer on the crop gets DuplicateOffer; both leave every field unchanged. Otherwise the offer is placed. Either way the retailer has an offer on the crop afterwards |
| Store.AppStore.PlaceOffer | src/lib/store.ts:322-359 | exactly one new pending offer is stored. With a crop reference, the offer message (offer id and price) goes to the crop's chat when the crop's farmer is known, and the chat list is refetched. An empty crop reference fails without a message |
| Store.AppStore.AnnounceOffer | src/lib/store.ts:333-358 | the offer note is posted to the (crop, retailer, farmer) chat if the farmer is known, else nothing changes; the chat list is refetched only when it was posted |
| Store.LabelOf | src/lib/store.ts:335-346 | the crop text uses the crop's name, quantity and farmer; a missing crop reads as 'crop' with empty quantity, unit and farmer; a status-only crop has no farmer |
| Store.FirstChat | src/lib/store.ts:436-444 | the chat lookup returns an id of the collection below the bound |
| Store.FirstChatIsFirst | src/lib/store.ts:436-444 | the lookup returns a chat of the (farmer, retailer, crop) triple with the smallest id, and returns none only when no chat matches |
| Store.FirstChatBeyond | src/lib/store.ts:436-444 | searching beyond the highest id finds nothing new |
| Store.FirstChatAgree | src/lib/store.ts:436-444 | the lookup depends only on the chats below the bound |
| Store.FirstChatAfterAdd | src/lib/store.ts:459-470 | a chat created for a triple with none is what the next lookup of the triple finds |
| Store.NewChat | src/lib/store.ts:459-466 | a new chat is active, has no last message time and records the triple |
| Store.AppStore.CreateOrGetChat | src/lib/store.ts:428-474 | without a user: Unauthorized, nothing changes. Otherwise the first chat of the triple is returned without writing, or a new one is created. Either way it becomes `currentChat`, and the lookup finds it from then on, so a second call returns the same chat |
| Store.OrNull | src/lib/store.ts:487-488 | `x \|\| null` keeps a present non-empty value and turns a missing or empty one into null |
| Store.NewMessage | src/lib/store.ts:482-490 | the message is from the sender and carries the content; the type defaults to text; an empty offer id and a zero price are stored as null; it has no receipts |
| Store.AppStore.SendMessage | src/lib/store.ts:476-498 | without a user: Unauthorized and nothing changes. Otherwise exactly one message is written under a fresh id and appended to the end of `messages` |
| Store.AppStore.PostToChat | src/lib/store.ts:349-357 | find-or-create the chat, then send one message into it: the chat is current, no other chat changes, exactly one message is written and appended. Without a user, nothing changes |
| Store.AppStore.Notify | src/lib/store.ts:389-419 | a note about a crop goes to the chat of its farmer and the retailer when both are known, and otherwise changes nothing |
| Store.AppStore.UpdateOfferPrice | src/lib/store.ts:366-425 | the failures in order, each leaving every field unchanged: not a retailer; empty offer id; no such offer; not the caller's offer; not pending. Success happens exactly when the caller's offer is pending |
| Store.AppStore.Reprice | src/lib/store.ts:385-421 | only the offer's price changes; the negotiation note (offer id and new price) goes to the crop's chat on a best-effort basis, and the result does not depend on it |
| Store.AppStore.MergeOfferStatus | src/lib/store.ts:507-508 | a merge write sets only the status of an existing offer; for a missing id it creates a status-only document |
| Store.AppStore.MergeCropStatus | src/lib/store.ts:515-517 | a merge write sets only the status of an existing crop; for a missing id it creates a status-only document |
| Store.RejectPendingSiblingsSpec | src/lib/store.ts:524-533 | only statuses change, and only pending offers on the crop other than the accepted one change, to rejected; afterwards no offer on the crop but the accepted one is pending |
| Store.RejectAmongSpec | src/lib/store.ts:528-532 | the batch's effect does not depend on the order of its writes: exactly the listed offers other than the accepted one end up rejected |
| Store.RejectAmongQuery | src/lib/store.ts:525-532 | rejecting the results of the pending-offers query, skipping the accepted id, is the sibling rejection |
| Store.AppStore.RejectSiblings | src/lib/store.ts:524-533 | the batch loop leaves exactly the sibling rejection in the offer collection |
| Store.NewTransaction | src/lib/store.ts:572-580 | the transaction links the offer, its crop and retailer, and the farmer; its amount is the offer's price and its status `pending_payment` |
| Store.AppStore.RespondToOffer | src/lib/store.ts:505-591 | there is no role check. A rejection changes only that offer's status. An acceptance on a crop: the offer is accepted, the crop becomes pending, the pending siblings are rejected, and the thank-you note and one `pending_payment` transaction for the offer's price are written (unless the crop's farmer is undefined). Success refetches offers and crops |
| Store.AppStore.DeclineOffer | src/lib/store.ts:507-509 | the rejection branch: only the offer's status changes, then offers and crops are refetched |
| Store.AppStore.AcceptOffer | src/lib/store.ts:509-583 | the acceptance branch, with the same outcomes as in `RespondToOffer` |
| Store.AppStore.CompleteAcceptance | src/lib/store.ts:513-582 | crop pending and siblings rejected (`CropReserved`), then the sale recorded (`SaleRecorded`) |
| Store.AppStore.ReserveCrop | src/lib/store.ts:515-533 | the crop of the accepted offer is pending, the siblings are rejected and the crops are refetched |
| Store.AppStore.RecordSale | src/lib/store.ts:535-581 | the thank-you note, then exactly one new `pending_payment` transaction; with an undefined farmer, the write fails and no transaction is added |
| Store.AppStore.FinishSale | src/lib/store.ts:535-587 | the sale is recorded; on success offers and crops are refetched |
| Store.AppStore.Refetch | src/lib/store.ts:585-586 | the offers and crops shown are the results of their queries |
| Store.AppStore.MarkCropSold | otp-backend/index.js:249-259 | missing id: 400 and nothing changes; a crop without a document: 500 and nothing changes; otherwise only that crop's status becomes sold |
| Otp.IndexOf | otp-backend/index.js:37 | the position of the first occurrence of a character, or none when it does not occur |
| Otp.ValidEmailIsPattern | otp-backend/index.js:37 | the one-pass email check accepts exactly the strings matching `^[^@]+@[^@]+\.[^@]+$` |
| Otp.ValidEmailMatches | otp-backend/index.js:37 | an accepted address splits into the three non-empty, `@`-free parts of the pattern |
| Otp.PatternIsValidEmail | otp-backend/index.js:37 | every string built as the pattern describes is accepted |
| Otp.NoAtIsNoEmail | otp-backend/index.js:37 | a string without `@` (such as `undefined`) is never a valid address |
| Otp.StripQuotes | otp-backend/index.js:20 | removing one pair of enclosing quotes never lengthens the key |
| Otp.UnescapeLeavesNoEscape | otp-backend/index.js:20 | after the rewrite no backslash-n pair is left, and a first character that is not a backslash stays in place |
| Otp.UnescapeWithoutBackslash | otp-backend/index.js:20 | a key without backslashes comes through unchanged |
| Otp.NormalizePrivateKeySpec | otp-backend/index.js:18-21 | an unset or empty key gives ''; the output never contains backslash-n; an unquoted key without backslashes is unchanged |
| Otp.NormalizeQuotedKey | otp-backend/index.js:18-21 | a quoted key loses exactly its enclosing quotes |
| Otp.OtpCodeIsDraw | otp-backend/index.js:43-45 | a code is six decimal digits, the first not 0, exactly when it is the numeral of a number in [100000, 999999] |
| Otp.GenerateOtp | otp-backend/index.js:43-45 | the code is the numeral of a number in [100000, 999999] |
| Otp.Recent | otp-backend/index.js:88 | the pruned history holds exactly the request times less than ten minutes old |
| Otp.WellFormedPut | otp-backend/index.js:94-100 | storing a sound record under a valid address keeps the map well formed |
| Otp.WellFormedDelete | otp-backend/index.js:123 | deleting a record keeps the map well formed |
| Otp.UndefinedHasNoRecord | otp-backend/index.js:119-121 | a request without an address finds no record |
| Otp.OtpService.constructor | otp-backend/index.js:38 | the service starts with no records |
| Otp.OtpService.RequestOtp | otp-backend/index.js:80-115 | a missing or malformed address gets 400 and nothing changes. With 5 or more requests in the window: 429, and the stored record keeps its code, expiry, attempts and verified flag (its history is pruned). Otherwise the record becomes a fresh six-digit code, expiring 600000 ms later, with 0 attempts, not verified, and history = pruned history + now (so at most 5 entries). A mail failure gives 500 with the record stored |
| Otp.VerifyReply | otp-backend/index.js:117-135 | corrected reply of `/verify-otp`, reading stored records only: success exactly for the stored code of an address that has a record, is unexpired and has been checked fewer than 6 times; every failure is a 200 with an error, "OTP not found" when nothing is stored |
| Otp.VerifyReplyAsWritten | otp-backend/index.js:117-135 | the handler as written: a name inherited from `Object.prototype` succeeds exactly when no code is sent; every other address gets the corrected reply |
| Otp.InheritedNameVerifies | otp-backend/index.js:117-135 | `constructor` has no record, yet the handler as written verifies it when no code is sent, where "OTP not found" is intended |
| Otp.VerifiedOnlyByStoredCode | otp-backend/index.js:117-135 | in a well-formed map, a successful corrected verification is for a valid address and a six-digit code equal to the stored one |
| Otp.OtpService.VerifyOtp | otp-backend/index.js:117-140 | the reply is the corrected `VerifyReply` of the map before the call. No record: nothing changes; expired, or 6 attempts already used: the record is deleted. Otherwise attempts go up by one before the comparison, and only the stored code sets `verified`; nothing else changes |
| Otp.OtpService.Check | otp-backend/index.js:130-135 | the counted comparison: the attempt is recorded before the match, and only the stored code marks the record verified |
| Otp.OtpService.ResetPassword | otp-backend/index.js:184-215 | missing fields: 400. Success happens exactly when the record exists, is unexpired, holds the submitted code, is verified, and the account update succeeds; success deletes the record. A name inherited from `Object.prototype` gets "OTP not verified", any other address without a record gets "OTP not found". An expired record is deleted; every other failure leaves the map unchanged |
| Otp.UnexpiredSpec | otp-backend/index.js:71-76 | the sweep keeps exactly the records with `now <= expires`, unchanged |
| Otp.DropExpired | otp-backend/index.js:73-75 | the key-by-key loop deletes exactly the expired records |
| Otp.OtpService.Sweep | otp-backend/index.js:71-76 | the map becomes its unexpired part |
| Otp.CheckOrder | otp-backend/index.js:217-235 | a missing, non-numeric or non-positive amount gives 400; a missing receipt gives 400; unset gateway keys give 500. The gateway is called exactly when all checks pass, with the amount, the receipt and the currency (default INR) |
| ChatView.AddOnce | src/components/Chat.tsx:74-76 | `arrayUnion` adds the id at most once, keeps the earlier entries in place and keeps the list free of repeats |
| ChatView.Stamp | src/components/Chat.tsx:72-79 | the viewer's own messages are untouched; on others' messages the viewer joins the receipt list of the kind given; no other field changes |
| ChatView.StampReceipts | src/components/Chat.tsx:72-79 | stamping adds the viewer and nobody else, and keeps a repeat-free list repeat-free |
| ChatView.StampNoop | src/components/Chat.tsx:73 | a message from the viewer, or one that already has the viewer's receipt, is left as it is |
| ChatView.StampIdempotent | src/components/Chat.tsx:72-79 | processing the same snapshot twice adds nothing the first pass did not |
| ChatView.StampsCommute | src/components/Chat.tsx:72-104 | the delivery and read receipts do not interfere |
| ChatView.StampAll | src/components/Chat.tsx:72-79 | the receipt loop leaves each message stamped and changes nothing else |
| ChatView.OnSnapshot | src/components/Chat.tsx:67-80 | without a user the messages stay unchanged; with one, every message from someone else carries the user's delivery receipt |
| ChatView.OnMessagesShown | src/components/Chat.tsx:86-107 | with no messages or no user nothing is written. Otherwise a `chat_reads` entry is written exactly when a last-read time exists, and every message from someone else carries the read receipt |
| ChatView.FirstFromOther | src/components/Chat.tsx:88 | the position of the first message not from the viewer, or none when all are the viewer's |
| ChatView.LastFrom | src/components/Chat.tsx:89 | the position of the last message from a given sender, or none when there is none |
| ChatView.LastReadAtSpec | src/components/Chat.tsx:88-96 | a mark is written exactly when someone else wrote in the chat; it is the time of the last message of the first other sender |
| ChatView.LastReadAtIsLatest | src/components/Chat.tsx:62-96 | for messages in time order, no message of that sender is newer than the mark |
| ChatView.StatusIcon | src/components/Chat.tsx:186-199 | no tick on others' messages; on one's own: read iff more than one id has read it, else delivered iff more than one has received it, else sent |
| ChatView.StampKeepsReceiptsOf | src/components/Chat.tsx:72-104 | in a two-party chat, the receipts on a message hold only the other party's id, each at most once |
| ChatView.StatusIconStuckAtSent | src/components/Chat.tsx:190-196 | with receipts from one other party only, the tick never passes "sent" |
| ChatView.StatusIconCounterexample | src/components/Chat.tsx:190-196 | a message delivered to and read by its recipient still shows "sent" |
| ChatView.IntendedStatusIcon | src/components/Chat.tsx:186-199 | corrected tick: read iff someone else has read it, delivered iff received and unread |
| ChatView.IntendedStatusFollowsReceipts | src/components/Chat.tsx:186-199 | with the corrected rule, the recipient's read receipt shows "read" and their delivery receipt shows at least "delivered" |
| ChatView.SendPrice | src/components/Chat.tsx:132-172 | blank input or no user: nothing happens; NaN or a non-positive price: an error; then missing crop or retailer info; then "no pending offer" exactly when the retailer has no pending offer on the chat's crop; otherwise `updateOfferPrice` is called for such an offer with the typed price |
| ChatView.PayNowOffer | src/components/Chat.tsx:504-523 | the button shows iff the user is a retailer, the tracker is hidden, and one of the user's offers on the chat's crop is accepted; it pays that offer |
| ChatView.PayNowAndPriceDisjoint | src/components/Chat.tsx:504-523 | the price form and the Pay Now button never act on the same offer |
| ChatView.AfterPayment | src/components/Chat.tsx:266-323 | the offer must still be listed. Mark-transaction-completed is called first (with the offer id); mark-crop-sold is called only if that succeeded. Tracking starts, `in_transit`, keyed by the offer id and naming the chat's farmer and the signed-in retailer, iff both calls succeeded and the tracking write is accepted; a write with an empty offer id, no open chat or no user fails and ends in the support alert |
| ChatList.LatestMessages | src/components/ChatList.tsx:50-57 | each row holds the chat's messages, newest first: all of them when there are fewer than 20, otherwise 20. Every message kept is one of the chat's (taken from the input, never duplicated), and a message of the chat left out is no newer than any kept |
| ChatList.UnreadCount | src/components/ChatList.tsx:94-103 | 0 without a user or for an unknown chat, and never more than the row's messages |
| ChatList.UnreadAtMost20 | src/components/ChatList.tsx:50-103 | the unread badge never exceeds 20 |
| ChatList.UnreadWithoutMark | src/components/ChatList.tsx:95-102 | with no last-read mark, every message of the other party counts |
| ChatList.UnreadMonotone | src/components/ChatList.tsx:100-102 | a later (or first) last-read mark never raises the count |
| ChatList.UnreadCountsOtherPartyOnly | src/components/ChatList.tsx:98-101 | a message the viewer writes never changes the count |
| ChatList.FormatLastMessageTime | src/components/ChatList.tsx:105-117 | "No messages" for none; "Just now" under an hour; whole hours 1..23 under a day; otherwise the date |
| ChatList.LabelText | src/components/ChatList.tsx:111-113 | the texts "No messages", "Just now" and `<hours>h ago` |
| ChatList.LabelAges | src/components/ChatList.tsx:105-117 | as a message ages its label never gets younger |
| Delivery.InitialStatus | src/components/LocationTracker.tsx:38 | acknowledged iff the delivery is already complete, otherwise in transit |
| Delivery.Rank | src/components/LocationTracker.tsx:38 | in transit, delivered and acknowledged in that order |
| Delivery.Offered | src/components/LocationTracker.tsx:213-249 | a farmer sees start-sharing only while in transit and not sharing, and mark-complete and stop only while in transit and sharing; a retailer sees confirm only while delivered |
| Delivery.StatusAfter | src/components/LocationTracker.tsx:128-158 | mark-complete leads to delivered, confirm leads to acknowledged, and sharing buttons keep the status |
| Delivery.OfferedStepsAdvance | src/components/LocationTracker.tsx:128-249 | through the offered buttons the status only moves forward, one step at a time, and nothing is offered once acknowledged |
| Delivery.DeliveryTracker.constructor | src/components/LocationTracker.tsx:35-38 | the screen starts in its initial status, not sharing, with no watch and no position |
| Delivery.DeliveryTracker.Controls | src/components/LocationTracker.tsx:213-249 | the buttons shown are those offered for the current role, status and sharing flag |
| Delivery.DeliveryTracker.StartSharing | src/components/LocationTracker.tsx:69-116 | without geolocation nothing changes; otherwise sharing starts with a new watch, a watch left over from before is cleared by the effect cleanup, and the status and watch id are captured for the callbacks |
| Delivery.DeliveryTracker.SetWatchId | src/components/LocationTracker.tsx:161-167 | setting a different watch id clears the watch the old id names; setting the same id clears nothing |
| Delivery.DeliveryTracker.StopSharing | src/components/LocationTracker.tsx:119-125 | the watch is cleared only when there is one; sharing is always off afterwards; a second call changes nothing |
| Delivery.DeliveryTracker.OnPosition | src/components/LocationTracker.tsx:78-101 | the position is shown; when the write succeeds the record gets the new location and time, and the status captured when sharing began; a failed write leaves the record |
| Delivery.DeliveryTracker.OnPositionError | src/components/LocationTracker.tsx:103-107 | sharing stops; with a captured watch, that watch and the one the screen holds are both cleared (the second by the effect cleanup as the id drops to none); with none captured nothing but the sharing flag changes |
| Delivery.DeliveryTracker.MarkDeliveryComplete | src/components/LocationTracker.tsx:128-142 | on success: the record and status say delivered, sharing stops and the watch is cleared; on failure nothing changes |
| Delivery.DeliveryTracker.AcknowledgeDelivery | src/components/LocationTracker.tsx:145-158 | on success: the record and status say acknowledged; on failure nothing changes |
| FarmerDashboard.DashboardStats | src/pages/farmer/Dashboard.tsx:266-274 | total = all crops, available and completed = the counts of that status, pending offers = 0, and available + sold + pending crops = total |
| FarmerDashboard.StatusCountsPartition | src/pages/farmer/Dashboard.tsx:269-272 | every crop has exactly one of the three statuses |
| FarmerDashboard.FilteredCrops | src/pages/farmer/Dashboard.tsx:328-331 | all crops for "all"; otherwise exactly the crops of that status |
| FarmerDashboard.FilteredCropsKeepOrder | src/pages/farmer/Dashboard.tsx:328-331 | the filter keeps the order of the crop list |
| FarmerDashboard.CropTable | src/pages/farmer/Dashboard.tsx:558-562 | expanded: all filtered crops; collapsed: min(5, n) crops, newest first |
| FarmerDashboard.CropTableShowsNewest | src/pages/farmer/Dashboard.tsx:558-562 | the collapsed table shows only filtered crops, and any crop left out is no newer than those shown |
| FarmerDashboard.SeasonData | src/pages/farmer/Dashboard.tsx:233-255 | the dictionary always has the four seasons as keys |
| FarmerDashboard.SeasonStep | src/pages/farmer/Dashboard.tsx:241-255 | one more transaction adds to its own season only, and only when completed |
| FarmerDashboard.SeasonDataTotals | src/pages/farmer/Dashboard.tsx:241-255 | each season's entry holds the revenue and number of the completed transactions of that season |
| FarmerDashboard.SeasonalRevenue | src/pages/farmer/Dashboard.tsx:232-264 | the four seasons in fixed order; each row holds the revenue and count of the completed transactions of its season (months 2-4, 5-7, 8-10, other) |
| FarmerDashboard.SeasonsConserve | src/pages/farmer/Dashboard.tsx:240-255 | the seasonal revenues sum to the total completed revenue, and the counts sum to the number of completed transactions |
| FarmerDashboard.TopSeason | src/pages/farmer/Dashboard.tsx:963-967 | none for an empty table; otherwise a season of maximum revenue, with earlier seasons winning ties |
| FarmerDashboard.BestIndex | src/pages/farmer/Dashboard.tsx:964-966 | the reduce holds a row of maximum revenue, and every earlier row earns strictly less |
| FarmerDashboard.IndexOfName | src/pages/farmer/Dashboard.tsx:147 | the dictionary's own entry for a name, if there is one |
| FarmerDashboard.InheritedNamesDropped | src/pages/farmer/Dashboard.tsx:147-151 | `!data[name]` is false for a name inherited from `Object.prototype`, so no entry is created: no sales and no revenue are filed under such a name |
| FarmerDashboard.GroupedTallied | src/pages/farmer/Dashboard.tsx:139-154 | the dictionary of the `forEach` holds one entry per name in use, each with its revenue and sales count, adding up to the totals |
| FarmerDashboard.TallyStep | src/pages/farmer/Dashboard.tsx:144-153 | filing one more transaction keeps the dictionary right |
| FarmerDashboard.GroupCompleted | src/pages/farmer/Dashboard.tsx:139-219 | the grouping loop builds a correct dictionary: one entry per name with sales, each holding its revenue and count, adding up to the totals. A sale whose name is inherited from `Object.prototype` gets no entry |
| FarmerDashboard.SalesRows | src/pages/farmer/Dashboard.tsx:157-163 | one row per entry, with the entry's name and revenue, and quantity = the number of sales |
| FarmerDashboard.TopSellingCrops | src/pages/farmer/Dashboard.tsx:135-166 | at most 5 rows with non-increasing revenue; each row's revenue and quantity are those of the completed sales of that crop name; a crop with sales is missing only when all 5 rows earn at least as much; no row is named after a member of `Object.prototype`, whose sales the dictionary drops |
| FarmerDashboard.TopSalesRows | src/pages/farmer/Dashboard.tsx:157-165 | sorting and slicing a correct dictionary gives the table `TopSellingCrops` promises |
| FarmerDashboard.TopBuckets | src/pages/farmer/Dashboard.tsx:164-165 | the top entries by revenue are correct, and a name with sales left out earns no more than any of them |
| FarmerDashboard.NameOrId | src/pages/farmer/Dashboard.tsx:283-291 | the profile's name when it can be read and is not empty, otherwise the id itself; never empty |
| FarmerDashboard.RetailerNames | src/pages/farmer/Dashboard.tsx:276-297 | one entry per retailer id of the farmer's offers, the empty id skipped, each the name or the id |
| FarmerDashboard.LookedUpRetailerKey | src/pages/farmer/Dashboard.tsx:276-297 | once the names are looked up, a sale with a known offer is filed under its retailer's name or id, and under 'Unknown Retailer' only when the offer has no retailer id |
| FarmerDashboard.RetailerBreakdown | src/pages/farmer/Dashboard.tsx:202-229 | rows by non-increasing revenue, one per retailer name ('Unknown Retailer' as fallback) with its revenue and count; sales without a known offer, or under a name inherited from `Object.prototype`, are dropped; the rows add up to the revenue and count of the kept sales |
| FarmerDashboard.SortedBuckets | src/pages/farmer/Dashboard.tsx:222-228 | sorting by revenue keeps the entries correct, complete and adding up |
| RetailerDashboard.AvailableCrops | src/pages/retailer/Dashboard.tsx:106 | exactly the available crops |
| RetailerDashboard.FilteredCrops | src/pages/retailer/Dashboard.tsx:108-114 | an empty term lists all available crops; otherwise exactly the available crops whose lower-cased name, description or location contains the lower-cased term |
| RetailerDashboard.FilteredCropsKeepOrder | src/pages/retailer/Dashboard.tsx:108-114 | the search keeps the order of the crop list |
| RetailerDashboard.SearchByNameFinds | src/pages/retailer/Dashboard.tsx:110 | typing an available crop's name in any letter case finds it |
| RetailerDashboard.LookedUpQuantity | src/pages/retailer/Dashboard.tsx:71-82 | the quantity stored for a crop is never 0, and is 1 when the crop is missing |
| RetailerDashboard.Quantities | src/pages/retailer/Dashboard.tsx:62-83 | one non-zero quantity for each crop of the retailer's transactions |
| RetailerDashboard.OrderQuantity | src/pages/retailer/Dashboard.tsx:124 | `q[id] \|\| 1`: never 0, 1 for an unknown crop |
| RetailerDashboard.OrderTotal | src/pages/retailer/Dashboard.tsx:124-125 | the unit price when the crop's quantity is unknown |
| RetailerDashboard.OrderTotalFallback | src/pages/retailer/Dashboard.tsx:74-125 | the order amount is price × quantity of a found crop, and the price itself otherwise |
| RetailerDashboard.RetailerTransactions | src/pages/retailer/Dashboard.tsx:55-60 | no user: none; otherwise exactly the user's transactions |
| RetailerDashboard.CompletedRows | src/pages/retailer/Dashboard.tsx:358-374 | exactly the completed transactions |
| RetailerDashboard.PendingRows | src/pages/retailer/Dashboard.tsx:393-409 | exactly the `pending_payment` transactions |
| RetailerDashboard.TablesPartition | src/pages/retailer/Dashboard.tsx:358-409 | no transaction is in both tables; the two tables plus the failed transactions account for all of them |
| RetailerDashboard.PendingTotal | src/pages/retailer/Dashboard.tsx:413 | the amount itself when the crop's quantity is unknown |
| RetailerDashboard.Times | src/pages/retailer/Dashboard.tsx:378 | the product is NaN exactly when the field is missing |
| RetailerDashboard.CompletedTotalAsWritten | src/pages/retailer/Dashboard.tsx:378 | the completed row's total as written is always NaN |
| RetailerDashboard.CompletedTotalIsNaN | src/pages/retailer/Dashboard.tsx:378 | every completed row shows something other than the corrected total |
| RetailerDashboard.CompletedTotal | src/pages/retailer/Dashboard.tsx:378 | corrected total: always a number, the amount when the quantity is unknown |
| RetailerDashboard.CompletedTotalAsPending | src/pages/retailer/Dashboard.tsx:378-413 | with the correction, a transaction shows the same total in both tables, and that total is the amount the order was created for |
| RetailerDashboard.PayNowCard | src/pages/retailer/Dashboard.tsx:327-343 | Pay Now shows on a card iff the retailer has an accepted offer for that crop, and it pays such an offer |
| RetailerDashboard.OrderFor | src/pages/retailer/Dashboard.tsx:117-133 | the order's receipt is the offer id; its amount is the price when the quantity is unknown |
| RetailerDashboard.RowChargesShownTotal | src/pages/retailer/Dashboard.tsx:413-417 | paying from a pending row charges the total the row shows |
| RetailerDashboard.RowAndCardAgree | src/pages/retailer/Dashboard.tsx:327-417 | paying from a card or from the matching pending row sends the same order |
| RetailerDashboard.PaymentCalls | src/pages/retailer/Dashboard.tsx:146-169 | no backend call unless a pending transaction of the offer is listed; then at most the two calls, and one if the first throws |
| RetailerDashboard.DashboardAndChatMarkDifferently | src/pages/retailer/Dashboard.tsx:156 | the dashboard marks the transaction's own id while the chat screen sends the offer id, and the two differ |
| MyOffers.RetailerOffers | src/pages/retailer/MyOffers.tsx:61-67 | no user: none; otherwise exactly the retailer's offers (as a multiset), newest first |
| MyOffers.Placeholder | src/pages/retailer/MyOffers.tsx:104-112 | a missing crop reads as 'Unknown Crop', quantity 0, no farmer |
| MyOffers.Details | src/pages/retailer/MyOffers.tsx:70-130 | a crop not found, or a failed lookup, gives the placeholder; a found crop gives its own details |
| MyOffers.FarmerLabel | src/pages/retailer/MyOffers.tsx:267 | the farmer's name, or "Unknown" |
| MyOffers.MissingCropRow | src/pages/retailer/MyOffers.tsx:101-273 | an offer on a missing crop shows 'Unknown Crop' and a total of 0 |
| MyOffers.FoundCropTotal | src/pages/retailer/MyOffers.tsx:273 | a found crop shows price × quantity |
| MyOffers.TabOffers | src/pages/retailer/MyOffers.tsx:144-146 | all offers on the 'all' tab; otherwise exactly the offers of that status |
| MyOffers.TabKeepsOrder | src/pages/retailer/MyOffers.tsx:144-146 | the tab keeps the list's order |
| MyOffers.TabCount | src/pages/retailer/MyOffers.tsx:166-190 | each button's count is the number of offers its tab shows |
| MyOffers.CountsAddUp | src/pages/retailer/MyOffers.tsx:166-190 | the four status counts sum to the total |
| MyOffers.EmptyTab | src/pages/retailer/MyOffers.tsx:198-213 | an empty status tab names its status; only the 'all' tab links to the crops |
| MyOffers.ActionFor | src/pages/retailer/MyOffers.tsx:292-313 | accepted → checkout of that offer, pending → waiting, rejected → new offer on the row's crop, completed → purchase complete |
| MyOffers.ActionShowsStatus | src/pages/retailer/MyOffers.tsx:292-313 | different statuses give different actions |
| MyOffers.NewOfferLinksToCrop | src/pages/retailer/MyOffers.tsx:105-305 | a rejected offer links to its own crop id, even when the crop is missing |
| Profile.Score | src/pages/Profile.tsx:57-64 | the number of criteria met, from 0 to 5: 5 iff all five are met, 0 iff none is; the length criterion counts UTF-16 code units |
| Profile.StrengthLabel | src/pages/Profile.tsx:66-70 | ≤1 Very Weak, 2 Weak, 3 Fair, 4 Good, 5 Strong |
| Profile.PasswordStrength | src/pages/Profile.tsx:54-71 | '' gives score 0 and no label; otherwise the score and its label |
| Profile.ScanMeaning | src/pages/Profile.tsx:82 | the one-pass scan accepts exactly the strings the regular expression matches |
| Profile.ValidatePassword | src/pages/Profile.tsx:80-84 | true iff at least 8 characters, all in `[a-zA-Z0-9@$!%*?&]`, with a lower-case letter, an upper-case letter and a digit |
| Profile.PolicyMeansGood | src/pages/Profile.tsx:60-82 | an accepted password scores at least 4 ("Good" or "Strong") |
| Profile.StrongButRefused | src/pages/Profile.tsx:64-82 | the meter can rate a password "Strong" that the policy refuses, because `#` is not an allowed character |
| Profile.FormCheck | src/pages/Profile.tsx:89-108 | the checks in order: all filled, new = confirm, policy, new ≠ old |
| Profile.FailureOf | src/pages/Profile.tsx:140-148 | an error from the auth calls is reported as a failure, never as a change |
| Profile.ChangePassword | src/pages/Profile.tsx:86-152 | refused exactly when a form check fails; otherwise not authenticated without a user; changed exactly when re-authentication and the update both succeed |
| Profile.ChangedMeansPolicy | src/pages/Profile.tsx:95-124 | a changed password meets the policy, differs from the old one, and scores at least 4 |
| Profile.ReauthGuardsUpdate | src/pages/Profile.tsx:119-124 | when re-authentication fails, the update's result does not matter |
| Register.ValidatePassword | src/pages/auth/Register.tsx:34-40 | the message of the first broken rule, in order (length ≥ 6 UTF-16 code units, capital, digit, special), and '' iff none is broken |
| Register.Checklist | src/pages/auth/Register.tsx:123-140 | four ticks, one per rule, in order |
| Register.EmojiCountTwice | src/pages/auth/Register.tsx:35 | `A1` followed by two emoji is four characters but six code units, so it meets the length rule |
| Register.MessageMatchesChecklist | src/pages/auth/Register.tsx:34-140 | the message is '' iff every tick is on, and otherwise it names the first rule not ticked |
| Register.EditPassword | src/pages/auth/Register.tsx:42-50 | the error is recomputed; the mismatch message is set iff the retype is non-empty and differs |
| Register.EditRetype | src/pages/auth/Register.tsx:52-59 | the mismatch message is set iff the two differ |
| Register.EditsKeepConsistent | src/pages/auth/Register.tsx:42-59 | after any edit the password error belongs to the current password and the mismatch message reflects the two fields |
| Register.EmptyFormConsistent | src/pages/auth/Register.tsx:61-66 | the empty form is consistent and invalid |
| Register.ValidFormMeansGoodPassword | src/pages/auth/Register.tsx:61-66 | on a form reached by edits, `isFormInvalid` is false iff the password passes every rule and the retype equals it |
| Register.SubmitMeansGoodPassword | src/pages/auth/Register.tsx:285 | the submit button is enabled only when nothing is loading and the form is valid, and then the two password fields agree, are not empty, and the password breaks none of the rules |
| Register.Submit | src/pages/auth/Register.tsx:68-96 | no reCAPTCHA token: stop; a successful registration goes to the role's dashboard |
| Register.CaptchaGuardsRegister | src/pages/auth/Register.tsx:70-73 | without a token, the outcome does not depend on `register` |
| Routes.Folded | src/App.tsx:51-99 | each segment lower-cased, the length kept: how a route without `caseSensitive` compares its literal segments |
| Routes.Resolve | src/App.tsx:51-99 | the empty path, and only it, is the home page; "/profile" in any letter case, and only it, is the profile page; a crop page's id is the segment as written |
| Routes.GuardIgnoresCase | src/App.tsx:51-99 | paths that differ only in letter case get the same guard, and both or neither fall to the catch-all |
| Routes.ProtectedRoute | src/App.tsx:27-45 | no user → /login; required role ≠ the user's → the literal target; otherwise render |
| Routes.Navigate | src/App.tsx:51-99 | a shown page is the page the path resolves to |
| Routes.AreasNeedTheirRole | src/App.tsx:64-87 | a page under /farmer or /retailer (in any letter case) shows iff the user has that role; no user goes to /login |
| Routes.ProfileNeedsLogin | src/App.tsx:90-94 | /profile, in any letter case, shows for any signed-in user and sends others to /login |
| Routes.PublicPages | src/App.tsx:53-61 | the home, login, register and forgot-password pages show for everyone |
| Routes.WrongRoleTargetIsNotHome | src/App.tsx:41 | a retailer opening the farmer dashboard (in any letter case) is sent to a target that is not "/" |
| Routes.IntendedProtectedRoute | src/App.tsx:27-45 | corrected guard: the wrong role goes to "/" |
| Routes.IntendedRedirectShows | src/App.tsx:41-54 | with the corrected guard, a user of the wrong role lands on the home page, which shows |
| Basics.Find | src/components/ChatList.tsx:96 | `.find`: the first element that satisfies the predicate, none iff no element does |
| Basics.SortDesc | src/pages/farmer/Dashboard.tsx:164 | `.sort((a, b) => b - a)`: sorted non-increasingly and a permutation of the input |
| Basics.Take | src/pages/farmer/Dashboard.tsx:165 | `.slice(0, n)`: a prefix of at most n elements, the whole list when it is shorter |
| Basics.TopOfSorted | src/pages/farmer/Dashboard.tsx:164-165 | the first n of a sort come from the input, and any element left out is at most every one taken |
| Basics.Decimal | src/lib/store.ts:343 | `toString` of a whole number: its decimal numeral |
| Basics.DigitsRoundTrip | src/lib/store.ts:343 | reading a numeral back gives the number |
| Basics.Lower | src/pages/retailer/Dashboard.tsx:110 | `toLowerCase` keeps the length and lower-cases each letter |
| Basics.Utf16Length | src/pages/auth/Register.tsx:35 | `.length` counts UTF-16 code units: at least one and at most two per character, exactly one each when no character lies outside the Basic Multilingual Plane |
| Basics.TopOfSortedSize | src/components/ChatList.tsx:53-54 | the first n of a sort are n elements of the input, or all of them when it has fewer |
| Basics.Contains | src/pages/retailer/Dashboard.tsx:110 | `includes` holds iff the needle occurs at some position |

## Left out

- The database and authentication services are in-memory maps and a signed-in user:
  - Live listeners (`onSnapshot`) are left out; their results are inputs.
  - Email/password `login` and `register` (src/lib/store.ts:68-99) are calls to the identity provider with no rules of the store's own, so they are not modelled.
- `loginWithFacebook` (src/lib/store.ts:135-162) is the same as `loginWithGoogle` with another provider, and is not repeated.
- `fetchChatMessages` and `setCurrentChat` (src/lib/store.ts:238-250, 500-502) are a plain query and a plain assignment.
- `refreshAllData` is left out; the refetch it performs appears where `respondToOffer` calls the fetches.
- `updateCropStatus` and `processPayment` (src/lib/store.ts:300-303, 601-604) only throw.
- Concurrency is left out:
  - Async writes interleave, so two concurrent `makeOffer` or `createOrGetChat` calls could both create a record.
  - The accept cascade is not atomic.
  - The model runs each action to completion.
- The sweep's `setInterval` is not modelled; `Sweep` is an operation that takes `now`.
- Query results are in document-id order. The `in` query limit of the document store (30 values) is not modelled.
- Floating point is left out. Money is whole numbers, so the following are not modelled:
  - `Math.round(amount * 100)` in `/create-order`;
  - the `toFixed` formatting;
  - `parseFloat` (the price input is blank, not a number, or a whole number);
  - the average-price table. `processAveragePrices` (src/pages/farmer/Dashboard.tsx:169-199) groups like `processTopSellingCrops` and then divides.
- Dates are left out: timestamps are integers and the month of a transaction comes from a given `monthOf`. The 30-day sales series (src/pages/farmer/Dashboard.tsx:107-133) and locale date strings are not modelled.
- ChatList.FormatLastMessageTime: the date shown after 24 hours is the raw timestamp, not the locale string.
- `Math.random` in `generateOtp` is a free choice of a number in [100000, 999999].
- External services are left out: the mailer (its outcome is the `mailSent` input), Razorpay order creation and script loading, geolocation (watch ids and positions are inputs), `fetch`, the per-IP `express-rate-limit` limiter (50 requests per 10 minutes), and the `/register` endpoint.
- `/mark-transaction-completed` only logs and returns success (otp-backend/index.js:243-247). No transaction ever becomes `completed` in the model.
- functions/index.js is not part of this model.
- src/pages/farmer/ManageOffers.tsx is not part of this model: its offer list is never filled.
- The ChatList name lookup (`fetchChatDetails`, src/components/ChatList.tsx:70-91) is not modelled. Neither are the farmer and crop name lookups of the retailer dashboard (src/pages/retailer/Dashboard.tsx:61-97 apart from the quantities), nor the status badge's capitalisation.
- The delivery tracker's live listener (src/components/LocationTracker.tsx:46-66) and the cleanup that runs when the screen unmounts (161-167) are not modelled. The screen's status changes only through its own handlers. The cleanup that runs when the watch id changes is modelled by `SetWatchId`.
- The retailer names of the farmer dashboard are looked up asynchronously (src/pages/farmer/Dashboard.tsx:276-297). Before the lookup completes the map is empty and every sale is filed under 'Unknown Retailer'; the interleaving of the lookup with the chart is not modelled, only the two states.
- The Google sign-up button on the registration page is `loginWithGoogle` plus navigation, and is not modelled separately.
- The transaction status type lists 'pending', but the store writes 'pending_payment'. The model follows the store.
- The crop status is not protected from regressing: `respondToOffer` sets any crop to pending, even a sold one. The model follows the code.
- `txn.amount || 0`: every modelled transaction has an amount. A missing amount is treated as 0 only by the season and group sums.
- `Object.entries` order: the grouped tables keep entries in first-sale order, and the stable sort keeps ties in that order. JavaScript lists integer-like keys (a crop named "2024") first, in numeric order; that only changes the order of ties and is not modelled.
- The grouping dictionaries write through inherited members: a sale under `constructor` adds to properties of the `Object` function, and one under `__proto__` to `Object.prototype` itself, which every object then inherits. The model only drops those sales from the tables; the prototype pollution is not modelled.
- Otp.VerifyReplyAsWritten: states only the reply. The handler's writes through an inherited member (`attempts` and `verified` set on the `Object` function or on `Object.prototype`) are not modelled.
- Basics.Lower lower-cases ASCII letters only. `toLowerCase` also folds other scripts; that is not modelled.
- MyOffers.RetailerOffers: the order of offers with equal `created_at` is not stated.
- ChatView.StatusIcon: the recipients' receipts reach the message through the live listener. The model stamps the array directly.

## Findings

| source | as written | input that shows it | evidently intended | confidence | as-written member | corrected member |
|---|---|---|---|---|---|---|
| src/components/Chat.tsx:190-196 | the read and delivered ticks need more than one id on `readBy` / `deliveredTo` | a two-party chat: the recipient receives and reads the message, so both lists are `[recipient]` and the tick stays "sent" | read (or delivered) once anyone else has read (or received) it, since the sender never stamps their own message | not executed; high | ChatView.StatusIconCounterexample | ChatView.IntendedStatusFollowsReceipts |
| src/pages/retailer/Dashboard.tsx:378 | the completed table multiplies `txn.price` | any completed transaction: the store writes `amount` and no `price` (src/lib/store.ts:572-580), so the total is NaN | `txn.amount`, as in the pending table (line 413) | not executed; high | RetailerDashboard.CompletedTotalIsNaN | RetailerDashboard.CompletedTotalAsPending |
| otp-backend/index.js:117-135 | `otps[email]` on a plain object also finds the members it inherits from `Object.prototype`, and for them every test compares with `undefined` | `/verify-otp` with email "constructor" and no `otp`: no code was ever issued, yet the reply is `{ success: true }` | only stored records count: "OTP not found" (e.g. look the address up with `Object.hasOwn` or use a `Map`) | not executed; high | Otp.InheritedNameVerifies | Otp.VerifyReply |
| src/App.tsx:41 | the wrong-role redirect goes to the literal `/\` | a retailer opening /farmer/dashboard is sent to "/\", not to "/" | redirect to the home page "/" | not executed; low (a JSX attribute string has no escapes, but the router may normalise the path) | Routes.WrongRoleTargetIsNotHome | Routes.IntendedRedirectShows |
