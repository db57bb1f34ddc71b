# mybusback in Dafny

A model of the backend of a Malian bus-ticketing service: an Express
application on MongoDB (through Mongoose) that sells seats on intercity trips
(`trajets`), takes payment through the VitePay gateway, tracks buses on the
road (`LiveTrip`), ships parcels (`colis`), manages the fleet (buses and their
drivers, `chauffeurs`) and reports revenue to administrators.

The database is a `Store.Database` object with one sequence field per
collection, kept in natural order, so that `find()` returns documents in that
order and `findOne()` returns the first match. Each collection carries an
invariant: its schema's validators, distinct `_id`s and its unique indexes.
Handlers that write are methods on that object, each framed to the fields
it changes. Each method states the status it answers with and the exact new
state. Handlers that only read are functions. The older handlers
(`controllers/reservations.js`, `controllers/trajets.js`,
`controllers/vitepay.js`) work on the older schemas `models/Trajet.js` and
`models/Reservation.js`, held in `Store.LegacyDatabase`.

Foreign code and the outside world enter as parameters:
- SHA1 is a hex-digest function. bcrypt is a hash function and a comparison.
- `jwt.sign` and `jwt.verify` return an optional token or payload.
- The gateway's answer to a POST is a `GatewayAnswer`.
- `Math.random` draws are reals in [0, 1).
- The clock is an instant `now`, and "today" is a calendar date.

Modules follow the source files:
- the schemas: `*_model.dfy`;
- one module per controller;
- `App` for app.js;
- `Seed` and `AddData` for the two scripts.
Shared modules sit beside them:
- `Common`: text helpers and draws;
- `Collection`: filters, stable sorts and sums over sequences;
- `Calendar`, `Schedule`: dates and departure instants;
- `Pagination`: JavaScript number conversion and skip/limit paging;
- `Store`: the collections and their invariants;
- `SeatLedger`: the invariant "free seats plus seats held by reservations that are not cancelled".

## Model

| member | source | states |
|---|---|---|
| Common.Lower | controllers/auth.controller.js:26 | `toLowerCase` keeps the length and maps each ASCII capital to its small letter |
| Common.Upper | controllers/vitepay.controller.js:17 | `toUpperCase` keeps the length and maps each ASCII small letter to its capital |
| Common.UpperIsIdempotent | controllers/vitepay.controller.js:17-18 | an upper-cased string has no small letter, and upper-casing it again changes nothing |
| Common.LowerIsIdempotent | models/client.model.js:9 | lower-casing twice is lower-casing once, so the stored e-mail is its own lower-cased form |
| Common.UpperConcat | controllers/vitepay.controller.js:17 | upper-casing a joined string is joining the upper-cased parts |
| Common.DigitsRoundTrip | controllers/stats.controller.js:55 | the decimal text of a number reads back as that number |
| Common.DigitsInjective | controllers/stats.controller.js:55-57 | two different numbers never have the same decimal text |
| Common.IntToString | controllers/stats.controller.js:55-57 | the text of an integer is non-empty and starts with '-' exactly for a negative integer |
| Common.IntToStringInjective | controllers/stats.controller.js:55-57 | two different integers never have the same text |
| Common.PadStart2 | controllers/stats.controller.js:55 | `padStart(2, '0')` leaves a text of two or more characters alone and brings a shorter one to length 2 |
| Common.Fields | middlewares/auth.middleware.js:15 | `split` on one character gives at least one field, none holding the separator |
| Common.FieldsJoin | middlewares/auth.middleware.js:15 | joining the fields of a split with the separator gives back the text |
| Common.JoinFields | middlewares/auth.middleware.js:15 | splitting separator-free fields joined by the separator gives back the fields |
| Common.Pick | models/colis.model.js:13 | `Math.floor(Math.random() * n)` is an index below n |
| Common.PickOfZero | models/colis.model.js:13 | a draw of 0 picks the first item |
| Collection.SortBy | controllers/bus.controller.js:19 | the sort keeps every document exactly once |
| Collection.SortBySorted | controllers/bus.controller.js:19 | the sort's result is ordered by its key |
| Collection.SortByFirstIsMin | controllers/bus.controller.js:19-26 | the first document of a sorted result is one of the documents, with the smallest key |
| Collection.SortByStable | controllers/dashboard.controller.js:40 | the sort is stable: for every key, the documents with that key come out in their original order |
| Collection.SortByConstantKey | controllers/stats.controller.js:68-72 | when every key is the same, the sort returns its input unchanged |
| Collection.SortByHeadIsFirstLeast | controllers/tracking.controller.js:44-50 | the first document of a sorted result is, among the documents of least key, the first in the original order |
| Collection.Filter | controllers/bus.controller.js:16-19 | a query result holds the documents that meet the filter and no other, and no longer than the collection |
| Collection.FilterPartition | controllers/dashboard.controller.js:25-40 | the documents that meet a test and those that fail it together are all the documents |
| Collection.SumOfPermutation | controllers/bus.controller.js:36 | a sum over documents does not depend on their order |
| Pagination.DigitPrefix | controllers/trajet.controller.js:19 | the digit run read is the longest run of digits at the start of the text |
| Pagination.ParseIntJs | controllers/trajet.controller.js:19 | `parseInt` reads the sign and the leading digits, and is NaN exactly when no digit follows the sign |
| Pagination.ToNumberJs | controllers/trajets.js:20 | unary plus reads "" as 0, and otherwise gives a number exactly when everything after the sign is digits |
| Pagination.ConversionsRoundTrip | controllers/trajets.js:20 | both conversions read the decimal text of an integer back as that integer |
| Pagination.ParseIntStopsAtNonDigit | controllers/trajet.controller.js:19 | digits followed by other text are that number for `parseInt` and NaN for unary plus |
| Pagination.NumberAgreesWithParseInt | controllers/trajets.js:20 | wherever unary plus gives a number for non-empty text, `parseInt` gives the same |
| Pagination.ParseIntParam | controllers/trajet.controller.js:18-19 | an absent query value is the default, a present one goes through `parseInt` |
| Pagination.NumberParam | controllers/trajets.js:11-20 | an absent query value is the default, a present one goes through unary plus |
| Pagination.SkipOf | controllers/trajet.controller.js:19 | the skip is NaN as soon as page or limit is, and with a positive limit it is non-negative exactly from page 1 on |
| Pagination.BatchSize | controllers/trajet.controller.js:26 | a limit of 0 lets every document through, any other limit its absolute value |
| Pagination.Window | controllers/trajet.controller.js:21-26 | the server refuses a NaN or negative skip and a NaN limit; otherwise the page is the run of sorted documents from the skip on, as many as the limit lets through |
| Pagination.PageCount | controllers/trajet.controller.js:37 | `Math.ceil(total / limit)` is null for a zero limit and otherwise the least page count covering the total |
| Pagination.Paginate | controllers/trajet.controller.js:21-38 | the reply exists exactly when the server accepts the skip and limit, and carries that window, the total, the page and the page count |
| Pagination.WindowOfSorted | controllers/trajet.controller.js:24-26 | a page of a sorted result is sorted, holds only documents of the result, and at most `limit` of them |
| Pagination.WindowSlice | controllers/trajet.controller.js:25-26 | with positive skip and limit, the page is the slice from the skip, cut at the end |
| Pagination.PageContents | controllers/trajet.controller.js:19-37 | page p holds documents (p−1)·limit up to p·limit, and no page past the count holds any |
| Pagination.PagesUpToIsPrefix | controllers/trajet.controller.js:19-26 | pages 1 to n together are the first n·limit documents |
| Pagination.PagesCoverAll | controllers/trajet.controller.js:19-37 | walking pages 1 to the page count lists every document exactly once, in order |
| App.WithoutSocket | app.js:33-35 | the table after a disconnect keeps exactly the users whose socket is another one, each with its socket |
| App.Presence.constructor | app.js:25 | the presence table starts empty |
| App.Presence.AddNewUser | app.js:28-31 | `addNewUser` maps the user to this socket, replacing an earlier socket, and changes no other entry |
| App.Presence.Disconnect | app.js:32-35 | the `for…in` sweep deletes every entry holding the closed socket and nothing else |
| App.NoEntryForClosedSocket | app.js:32-35 | after a disconnect no user is mapped to the closed socket |
| App.DisconnectIdempotent | app.js:32-35 | a second disconnect of the same socket changes nothing |
| App.AddThenDisconnect | app.js:28-35 | a user added on a socket is gone once that socket closes, and a user mapped to another socket stays |
| App.AddReplaces | app.js:28-29 | a user re-added on a new socket is mapped to the new one only |
| App.Server.Attach | app.js:46-50 | every request gets the one Socket.IO server and the one presence table |
| App.SharedTable | app.js:46-50 | two requests share the presence table: a user added through one is seen through the other |
| App.ErrorStatus | app.js:86 | a reply still at 200 becomes 500, any other status is kept, so an error reply is never 200 |
| App.HandleError | app.js:85-92 | the error reply carries the status above and the error's message, and the stack exactly outside production |
| App.NotFound | app.js:80-84 | an unmatched route answers 404 with "Non trouvé - " and the original URL |
| App.ErrorStatusIdempotent | app.js:86 | applying the status rule twice is applying it once |
| AuthMiddleware.TokenOf | middlewares/auth.middleware.js:15 | the token taken from the header is the second space-separated field and holds no space |
| AuthMiddleware.TokenOfWellFormed | middlewares/auth.middleware.js:15 | "Bearer", one space and a token without spaces give back exactly that token |
| AuthMiddleware.TwoSpacesLoseToken | middlewares/auth.middleware.js:15 | with two spaces after "Bearer" the token read is the empty string |
| AuthMiddleware.Protect | middlewares/auth.middleware.js:6-36 | no "Bearer" header gives 401 "pas de token"; a missing, empty or unverifiable token gives 401 "token invalide"; a payload naming no stored user gives 401 "utilisateur non trouvé"; the request goes on exactly when a stored user was found, and it carries that user without password |
| AuthMiddleware.ProtectAcceptsStoredUser | middlewares/auth.middleware.js:9-27 | a well-formed header whose token verifies to a stored user's id lets the request on with that user |
| AuthMiddleware.GetUserProfile | controllers/auth.controller.js:79-81 | the profile is there exactly when `protect` let the request on, and it is a stored user without password |
| AuthMiddleware.ProfileIsStoredUser | controllers/auth.controller.js:79-81 | the profile behind a well-formed header is the stored user the token names |
| AuthMiddleware.IsAdmin | middlewares/auth.middleware.js:39-45 | the request goes on exactly for a user with role admin, otherwise 403 with the fixed message |
| AuthMiddleware.AdminChain | middlewares/auth.middleware.js:6-45 | `protect` followed by `isAdmin` lets on only a request whose token names a stored admin |
| RoleGuard.IsAdminClient | middlewares/role.js:2-9 | the request goes on exactly when `req.client` is there with role admin, otherwise 403 with its own message |
| RoleGuard.ReadsClientOnly | middlewares/role.js:3 | the guard's answer does not depend on `req.user` |
| RoleGuard.ProtectRequest | middlewares/auth.middleware.js:21-27 | `protect` decides as above, fills `req.user` when it lets the request on and leaves `req.client` alone |
| RoleGuard.ProtectThenClientGuardRefuses | middlewares/role.js:2-9 | after `protect`, this guard refuses every request that came without `req.client`, whatever the token |
| RoleGuard.GuardsDisagree | middlewares/role.js:3 | one admin user in `req.user` passes the first guard and is refused by this one |
| ClientModel.Build | models/client.model.js:5-15 | the document validates exactly when names, e-mail and password are given and non-empty; it then holds the lower-cased e-mail, the given password and telephone, and the given role or 'client' |
| ClientModel.ClientDocument.constructor | models/client.model.js:18-19 | a new document counts its password as modified |
| ClientModel.ClientDocument.Loaded | models/client.model.js:18-19 | a loaded document counts nothing as modified |
| ClientModel.ClientDocument.PreSave | models/client.model.js:18-25 | the hook replaces the password by its hash only when the password path was modified, and leaves the document saved |
| ClientModel.SaveTwiceHashesOnce | models/client.model.js:18-25 | saving a new document twice hashes its password once |
| ClientModel.RegisteredPasswordMatches | models/client.model.js:28-30 | the password a user registered with matches the stored hash when the comparison accepts each password against its own hash |
| AuthController.RoleFor | controllers/auth.controller.js:23-28 | the role is admin exactly when an e-mail is given whose lower-cased form ends in "@admin.ml" |
| AuthController.AdminSuffixAnyCase | controllers/auth.controller.js:26 | any capitalisation of "@admin.ml" after any local part gives an admin |
| AuthController.PlainAddressIsClient | controllers/auth.controller.js:23-28 | an address shorter than the suffix is never an admin |
| AuthController.FindByEmail | controllers/auth.controller.js:15 | the lookup finds a user whose stored e-mail is the lower-cased address, and finds none exactly when no stored e-mail is that address or none was given |
| AuthController.SignUp | controllers/auth.controller.js:12-54 | a taken address gives 400 and stores nothing; a document that fails validation gives 500 and stores nothing; otherwise the user is appended with the hashed password and the role its address gives, stored roles follow stored e-mails, and the reply is 201 with the user and a token exactly when signing succeeds |
| AuthController.Register | controllers/auth.controller.js:12-54 | the sign-up with telephone: 400 "Cet email est déjà utilisé" exactly for a taken address, storing nothing; 500 storing nothing when validation rejects the user; otherwise the user is appended with the hashed password and the role its address gives, and the reply is 201 with the user and a 30-day token, or 500 when signing fails |
| AuthController.SignIn | controllers/auth.controller.js:57-76 | the reply is 401 exactly when no user has the address or the entered password does not match; 200 carries the found user and a token of that user's id |
| AuthController.SignInFailsUniformly | controllers/auth.controller.js:61-71 | an unknown address and a known one with a wrong password get the same 401 reply |
| AuthController.SignUpThenSignIn | controllers/auth.controller.js:12-76 | a stored user signs in with their password whatever the case of the typed address |
| AuthController.Login | controllers/auth.controller.js:57-76 | login uses the 30-day token and "Email ou mot de passe invalide" |
| ClientController.InscrireClient | controllers/client.controller.js:17-53 | the sign-up without telephone: 400 "Email déjà utilisé" exactly for a taken address, storing nothing; 500 storing nothing when validation rejects the user; otherwise the user is appended with the hashed password, no telephone and the role its address gives, and the reply is 201 with the user and a 7-day token, or 500 when signing fails |
| ClientController.ConnecterClient | controllers/client.controller.js:56-89 | both failed sign-ins give 401 "Identifiants invalides"; 200 carries a 7-day token of the user |
| ClientController.ProfilClient | controllers/client.controller.js:92-101 | the profile exists exactly when `req.client` does and repeats its id, names, e-mail and role |
| ClientController.ProfileHidesSecrets | controllers/client.controller.js:94-100 | the profile does not depend on the password or the telephone |
| ClientController.SignInMatchesProfile | controllers/client.controller.js:56-101 | a successful sign-in and the profile of the same user agree on every shared field |
| BusModel.ParseEtat | models/bus.model.js:7-12 | a state string is accepted only as one of the three enum values, and names the state it parses to |
| BusModel.EtatRoundTrip | models/bus.model.js:10 | each state's name parses back to that state |
| BusModel.Create | models/bus.model.js:4-16 | a body validates exactly with a non-empty number and, when given, a known state; the new bus holds the given fields, 'en service' and 50 seats by default |
| BusModel.Update | models/bus.model.js:4-16 | an update validates exactly when the given number is non-empty and the given state known; it replaces the given fields, keeps the others and the id, and keeps a valid bus valid |
| BusController.FutureTripsOf | controllers/bus.controller.js:16-19 | the coming trips of a bus are a reordering of the stored trips on that bus departing from now on, in ascending departure order |
| BusController.GetBuses | controllers/bus.controller.js:7-47 | one entry per stored bus, in stored order, each holding that bus and its own overview |
| BusController.OverviewOf | controllers/bus.controller.js:14-43 | an entry repeats the bus's own fields |
| BusController.ConfirmedOnSameTrips | controllers/bus.controller.js:31-34 | the `$in` filter depends on which trips are given, not on their order |
| BusController.OverviewSeats | controllers/bus.controller.js:21-37 | the seat count is the sum of the seats of the confirmed reservations on the bus's coming trips, which is 0 when there are none |
| BusController.OverviewNextTrip | controllers/bus.controller.js:22-28 | there is no next trip exactly when no trip of the bus departs from now on; otherwise it is a coming trip of the bus that no other coming trip precedes, labelled "départ → arrivée" |
| BusController.SumOfSeatsNonNegative | controllers/bus.controller.js:36 | a sum of reservations of at least one seat each is never negative |
| BusController.OverviewSeatsNonNegative | controllers/bus.controller.js:36 | no bus shows a negative seat count |
| BusController.CreateBus | controllers/bus.controller.js:60-67 | 400 exactly when validation rejects the body or another bus has the number, and nothing is stored; otherwise 201 and the built bus is appended |
| BusController.GetBusById | controllers/bus.controller.js:70-78 | 404 exactly for an unknown id, otherwise 200 with the stored bus of that id |
| BusController.UpdateBus | controllers/bus.controller.js:81-92 | an invalid body gives 400 before the lookup, an unknown id 404, a number another bus has 400, each leaving the table unchanged; otherwise the bus is replaced in place by its update |
| BusController.DeleteBus | controllers/bus.controller.js:95-103 | 404 and nothing changes for an unknown id, otherwise 200 and exactly that bus is removed |
| Calendar.DayKeyOrder | controllers/stats.controller.js:69-72 | on valid days the numeric day key orders days chronologically and tells days apart |
| Calendar.NextDay | seed.js:42 | the day after a valid day is a valid, later day, rolling over month and year ends |
| Calendar.PrevDay | controllers/stats.controller.js:13 | the day before a valid day is a valid, earlier day, rolling back over month and year starts |
| Calendar.PrevNext | controllers/stats.controller.js:13 | stepping one day forward and back, or back and forward, returns to the same day |
| Calendar.AddDays | seed.js:42 | `setDate(getDate() + n)` gives a valid day, later than the start when n is positive |
| Calendar.SubDays | controllers/stats.controller.js:13 | `setDate(getDate() - n)` gives a valid day, earlier than the start when n is positive |
| Calendar.SubAddDays | controllers/stats.controller.js:13 | going back n days and forward n days returns to the same day |
| Calendar.AddDaysLast | seed.js:41-43 | adding n + 1 days is adding n days and then one more |
| Calendar.Midnight | controllers/stats.controller.js:14 | `setHours(0, 0, 0, 0)` keeps the day and gives a valid instant |
| Calendar.TimeValueOrder | controllers/bus.controller.js:18 | comparing Dates orders them by day, then by time of day |
| Calendar.WithinDay | controllers/stats.controller.js:12-14 | an instant falls between its day's midnight and the next midnight |
| ChauffeurModel.Create | models/chauffeur.model.js:4-12 | a driver validates exactly with non-empty names and a non-empty telephone of at most 12 characters, and keeps the given telephone and bus |
| ChauffeurModel.Update | models/chauffeur.model.js:4-12 | an update validates exactly when each given field passes the schema; it keeps the id and the fields not given, sets the bus, and keeps a valid driver valid |
| ChauffeurController.BusOf | controllers/chauffeur.controller.js:32 | `busId \|\| null` keeps exactly a non-empty bus id |
| ChauffeurController.OwnBusNoConflict | controllers/chauffeur.controller.js:52-55 | excluding the driver itself, its own bus is held by nobody else, so re-saving it passes the check |
| ChauffeurController.HeldOnceAfterAppend | controllers/chauffeur.controller.js:13-33 | adding a driver whose bus no one holds keeps each bus held by at most one driver |
| ChauffeurController.HeldOnceAfterReplace | controllers/chauffeur.controller.js:50-72 | giving a driver a bus no other driver holds keeps each bus held by at most one driver |
| ChauffeurController.CreateChauffeur | controllers/chauffeur.controller.js:9-39 | with a bus id, 400 exactly when a driver holds it and 404 exactly when no bus has it; 500 when validation fails; otherwise 201 and the driver is appended; the table keeps each bus held once |
| ChauffeurController.UpdateChauffeur | controllers/chauffeur.controller.js:45-81 | with a bus id, 400 exactly when another driver holds it and 404 when no bus has it; then 500 for a rejected field and 404 for an unknown driver; otherwise the driver is replaced in place by its update; the table keeps each bus held once |
| ChauffeurController.PopulateBus | controllers/chauffeur.controller.js:89 | the populated bus is the stored bus the driver names, and null exactly when the driver has no bus or it is gone |
| ChauffeurController.GetChauffeurs | controllers/chauffeur.controller.js:87-95 | every driver in stored order with its populated bus |
| ChauffeurController.GetChauffeurById | controllers/chauffeur.controller.js:101-112 | 404 exactly for an unknown id, otherwise 200 with that stored driver and its bus |
| ChauffeurController.DeleteChauffeur | controllers/chauffeur.controller.js:118-129 | 404 and nothing changes for an unknown id; otherwise exactly that driver is removed and its bus is held by nobody |
| ChauffeurController.FreedAfterRemove | controllers/chauffeur.controller.js:115 | once the only holder of a bus is removed, nobody holds it |
| ColisModel.AlphabetFacts | models/colis.model.js:10 | the code alphabet has 32 symbols, none of them 0, 1, O or I |
| ColisModel.GroupUnambiguous | models/colis.model.js:10 | each eight-symbol group of the alphabet avoids 0, 1, O and I |
| ColisModel.CodeUnambiguous | models/colis.model.js:10 | a code spelled from the alphabet holds no look-alike symbol |
| ColisModel.CodeFrom | models/colis.model.js:12-14 | the code has one symbol per draw, the i-th being the alphabet symbol at floor(draw × 32) |
| ColisModel.GenerateCode | models/colis.model.js:9-16 | the loop builds exactly the code the first `length` draws spell, of that length |
| ColisModel.CandidateCode | models/colis.model.js:70 | each candidate code has the default length 8 |
| ColisModel.CandidateCodeSymbols | models/colis.model.js:10-14 | each candidate code uses only alphabet symbols, hence none of 0, 1, O or I |
| ColisModel.CalculPrixMonotone | models/colis.model.js:23-27 | a heavier parcel never costs less, and a strictly heavier one costs more |
| ColisModel.CalculPrixInverse | models/colis.model.js:23-27 | the weight is recovered from the price: 500 plus 300 per kilogram |
| ColisModel.ParseStatut | models/colis.model.js:42-46 | a status string is accepted only as one of the four enum values, and names the status it parses to |
| ColisModel.StatutRoundTrip | models/colis.model.js:44 | each status name parses back to that status |
| ColisModel.DrawUniqueCode | models/colis.model.js:67-72 | the code returned is the first candidate no stored parcel holds, every earlier candidate being taken; none is returned only when all candidates are taken |
| ColisModel.ColisDocument.constructor | models/colis.model.js:66-77 | a new document is new and counts its weight as modified |
| ColisModel.ColisDocument.Loaded | models/colis.model.js:66-77 | a loaded document is neither new nor modified |
| ColisModel.ColisDocument.Assign | models/colis.model.js:77 | assigning fields marks the weight modified only when it changes |
| ColisModel.ColisDocument.PreSave | models/colis.model.js:64-82 | a new document gets a free 8-symbol code; the price is recomputed exactly when the document is new or its weight changed; no other field moves, and the document ends saved |
| ColisController.NewColis | controllers/colis.controller.js:17-26 | the document exists exactly when a weight is given; it has status 'enregistré', no code, the date of now and the given trip, and it validates exactly when the trip, the description and every sender and recipient field are given |
| ColisController.SaveNew | models/colis.model.js:64-82 | 400 exactly when validation rejects the parcel, storing nothing; otherwise the parcel, with a free 8-symbol code and the price of its weight, is appended |
| ColisController.CreerColis | controllers/colis.controller.js:4-34 | the handler never passes the required trip, so every call answers 400 and stores nothing |
| ColisController.CreerColisWithTrajet | controllers/colis.controller.js:4-34 | with the body's trip passed: 201 exactly when the weight, the trip, the description and every sender and recipient field are given, appending the parcel with that trip, a free code and the price of its weight; otherwise 400 storing nothing |
| ColisController.GetAllColis | controllers/colis.controller.js:36-44 | every parcel once, newest registration first |
| ColisController.GetColisById | controllers/colis.controller.js:46-56 | 404 exactly for an unknown id, otherwise 200 with the stored parcel of that id |
| ColisController.FindByCode | controllers/colis.controller.js:62 | the lookup finds the first parcel holding the code, and none exactly when no parcel holds it |
| ColisController.GetColisByCode | controllers/colis.controller.js:59-69 | 404 exactly when no parcel holds the code, otherwise 200 with a stored parcel holding it |
| ColisController.GetColisByCodeUnique | controllers/colis.controller.js:59-69 | with unique codes the parcel found is the one holding the code |
| ColisController.StatutUpdateAllowedIsSchemaStatus | controllers/colis.controller.js:76 | the three accepted statuses are schema statuses, and 'annulé' is refused although the schema knows it |
| ColisController.UpdateStatutColis | controllers/colis.controller.js:71-97 | 400 exactly for a status outside the three, 404 exactly for an unknown id, both unchanged; otherwise only the parcel's status changes |
| ColisController.Merge | controllers/colis.controller.js:113 | fails exactly when the given status is not a schema status; otherwise each of the twelve paths the body sets (trip, description, weight, price, status, code, sender's name, telephone and e-mail, recipient's name and telephone, registration date) holds the body's value, and each it leaves out, and the id, keep the parcel's |
| ColisController.RepricedRule | controllers/colis.controller.js:113-120 | a new weight gives the price of that weight; a body without a price keeps a weight-priced parcel weight-priced; a price given with an unchanged weight is kept |
| ColisController.UpdateColis | controllers/colis.controller.js:99-131 | 404 exactly for an unknown id; 400 exactly when the merge or validation fails or the code clashes with another parcel's, unchanged; otherwise the merged parcel, repriced when its weight changed, replaces the stored one |
| Dashboard.Partition | controllers/dashboard.controller.js:25-37 | the loop leaves in the future list exactly the bookings whose trip departs at or after now and in the past list exactly the others that have a trip, each in booking order |
| Dashboard.ClientDashboard | controllers/dashboard.controller.js:11-60 | the past trips are the partition's past list; there is a next trip exactly when some confirmed booking departs from now on, and it is the head of the future list sorted by trip date (the earliest, and the first in natural order among those of that date, by Dashboard.FutureOrderedByDate), paired with that trip's live record; the parcels are the user's five newest |
| Dashboard.PartitionIsExact | controllers/dashboard.controller.js:28-37 | each booking with a trip is in exactly one list, with the right side of now, and a booking without a trip in neither |
| Dashboard.FutureOrderedByDate | controllers/dashboard.controller.js:40-44 | the future list is ordered by trip date alone; the next trip has the earliest date of the future trips, and no future trip before it in natural order has that date |
| Dashboard.ColisListCut | controllers/dashboard.controller.js:51-53 | at most five parcels, each a stored parcel sent from the user's e-mail, newest first, and all of them when the user sent at most five |
| AddData.ScriptBusesAccepted | add-data.js:30-34 | the three buses of the script pass the bus schema and carry distinct numbers |
| AddData.NewBusesFrom | add-data.js:56-62 | the buses saved for the first k candidates are as many as the candidates whose number was not stored before the script, each one the saved document of such a candidate |
| AddData.NewBusesTable | add-data.js:56-62 | appending the saved buses keeps bus ids and bus numbers unique |
| AddData.NewBusesOtherNumbers | add-data.js:56-62 | no bus saved in an earlier round carries the number of the current candidate |
| AddData.LookupSeesOnlyOldNumbers | add-data.js:57-60 | round k's `findOne({ numero })` finds a bus exactly when the number was stored before the script; only then is nothing saved and the counter left alone |
| AddData.SaveRound | add-data.js:57-61 | one round on the growing collection leaves it followed by the new buses of one more candidate, and counts one bus exactly when that number was not stored before the loop |
| AddData.SaveRounds | add-data.js:56-62 | the rounds of the loop leave the collection followed by exactly the new buses, in candidate order, and count them |
| AddData.AddBuses | add-data.js:55-63 | step 2: the bus collection becomes the old one plus the new buses, with unique ids and numbers, and `busAjoutes` is their number |
| AddData.EveryNumberStored | add-data.js:56-62 | after step 2 every number of the script is stored |
| AddData.NewBusAppears | add-data.js:56-62 | after the first k rounds each of their candidates' numbers is stored |
| AddData.FirstOfNomIsFindIndex | add-data.js:79-80 | the filter's test `a.findIndex(t => t.nom === v.nom) === i` holds exactly when no earlier city has the same name |
| AddData.DedupFromSource | add-data.js:79-80 | every kept city is a city of the list whose name no earlier city has |
| AddData.DedupFromKeeps | add-data.js:79-80 | the first city of each name is kept |
| AddData.DedupFromDistinct | add-data.js:79-80 | the kept cities have pairwise distinct names |
| AddData.DedupByNomFacts | add-data.js:72-80 | the deduplicated list holds cities of the input only, names distinct, the first city of every input name included |
| AddData.ScriptCities | add-data.js:79-80 | the script's deduplicated city list is not empty and every city has a name |
| AddData.ScriptCitiesNamed | add-data.js:12-28 | every city of the two lists has a non-empty name |
| AddData.ArrivalFor | add-data.js:87-91 | the arrival is a listed city of another name than the departure, and there is none exactly when every given draw picks the departure's name |
| AddData.DrawArrival | add-data.js:87-91 | the redraw loop ends with the first draw naming another city, or reports that the draws ran out, as ArrivalFor says |
| AddData.PlannedTrips | add-data.js:85-110 | with every arrival found, exactly fifteen trips |
| AddData.PlannedTripAt | add-data.js:85-110 | planned trip i is the trip built from the i-th round's draws |
| AddData.GenerateTrips | add-data.js:84-110 | the fifteen-round loop builds exactly the planned trips, or none when some round's draws run out |
| AddData.TripBounds | add-data.js:86-108 | a generated trip joins two listed cities of different names with their coordinates, departs 1 to 14 days after now at now's time of day, costs a whole thousand from 5000 to 19000, has 50 seats, a listed hour and company, is active, and names one of the given buses |
| AddData.TripOnBusInService | add-data.js:66-69 | every trip drawn from buses in service runs on a bus whose state is "en service" |
| AddData.PlannedTripsValid | add-data.js:96-108 | every generated trip passes the trip schema and carries its own id |
| AddData.InsertKeepsTable | add-data.js:112 | `insertMany` of trips with fresh distinct ids that pass the schema keeps the trip collection well formed |
| AddData.Run | add-data.js:40-121 | the whole script: buses first; no bus in service stops it before any trip is made; otherwise the fifteen planned trips on the buses in service are inserted together; both collections stay well formed |
| Tracking.DepartureOf | controllers/tracking.controller.js:31-32 | the rebuilt departure exists exactly when the trip date is valid and `heureDepart` is a clock time, and is then that day at that time |
| Tracking.LiveTripIndex | controllers/tracking.controller.js:53 | the lookup finds a live record of the trip, and none exactly when no record names the trip |
| Tracking.LiveTripFor | controllers/tracking.controller.js:53 | the live record returned is a stored record of the trip, and null exactly when the trip has none |
| Tracking.MyNextTrip | controllers/tracking.controller.js:11-58 | the reservation returned is one of the client's confirmed reservations whose trip departs from now on |
| Tracking.ConfirmedBookingsMembers | controllers/tracking.controller.js:16-19 | the populated list holds exactly the client's confirmed reservations, each with its trip |
| Tracking.NoConfirmedIff | controllers/tracking.controller.js:21-23 | "aucune réservation confirmée" comes exactly when the client has no confirmed reservation |
| Tracking.NoUpcomingIff | controllers/tracking.controller.js:27-41 | "aucun voyage à venir" comes exactly when the client has confirmed reservations but none on a trip that is still there and departs from now on |
| Tracking.NextTripIsEarliest | controllers/tracking.controller.js:27-57 | the reservation returned is confirmed, upcoming and departs no later than any other upcoming confirmed reservation of the client, no upcoming confirmed booking before it in natural order departs as early, and its live record is its trip's |
| Tracking.StartTrip | controllers/tracking.controller.js:68-87 | 404 exactly for an unknown trip, 400 exactly when its bus is not found; an existing live record gets status 'En cours' and keeps its other fields, failing with 500 exactly when it no longer validates; otherwise a new record copies the trip's bus, cities and date; no other record changes |
| Tracking.UpdateBusPosition | controllers/tracking.controller.js:88-96 | 404 and nothing changes for an unknown record; otherwise only that record's position and update time are set, as given |
| Schedule.ParseClock | controllers/tracking.controller.js:32 | an "HH:MM" string the Date parser accepts gives its minutes after midnight, at most the 24:00 end of day; any other string is an Invalid Date |
| Schedule.ClockText | controllers/tracking.controller.js:32 | a time of day is written in five characters |
| Schedule.ClockRoundTrip | controllers/tracking.controller.js:32 | every time of day written as "HH:MM" parses back to itself |
| Schedule.Departure | controllers/tracking.controller.js:31-32 | the rebuilt departure exists exactly when `heureDepart` parses, and is a valid instant |
| Schedule.DepartureIgnoresTimeOfDay | controllers/tracking.controller.js:31 | only the calendar date of `dateDepart` counts, not its time of day |
| Schedule.DepartureWithinDay | controllers/tracking.controller.js:31-32 | the departure lies between midnight of the trip's day and the next midnight |
| LiveTripModel.ParseStatus | models/LiveTrip.model.js:20-24 | a status string is accepted only as one of the four enum values, and names the status it parses to |
| LiveTripModel.StatusRoundTrip | models/LiveTrip.model.js:22 | each status name parses back to that status |
| LiveTripModel.New | models/LiveTrip.model.js:9-33 | a new record validates exactly with non-empty city names and a valid date; it copies the given trip, bus, cities and date, has no position yet and takes the given status or 'À venir' |
| TrajetModel.Create | models/trajet.model.js:9-25 | a body validates exactly when every required path is present and valid; the trip takes every path the body sets, is active by default and has no bus unless one is given |
| TrajetModel.Update | models/trajet.model.js:9-25 | an update validates exactly when each path the body sets passes its validator, and keeps the trip's id |
| TrajetModel.UpdateSetsAndKeeps | models/trajet.model.js:9-25 | an accepted update takes every path the body sets, keeps every other path, and keeps a valid trip valid |
| TrajetModel.UpdateWithNothing | models/trajet.model.js:9-25 | an empty update leaves the trip as it is |
| TrajetModel.UpdateIdempotent | models/trajet.model.js:9-25 | applying the same update twice is applying it once |
| TrajetModel.CreateBodyIsUpdateBody | models/trajet.model.js:9-25 | a body that creates a trip also passes the update validators |
| ReservationModel.ParseStatut | models/reservation.model.js:13-17 | a status string is accepted only as one of the three enum values, and names the status it parses to |
| ReservationModel.StatutRoundTrip | models/reservation.model.js:15 | each status name parses back to that status |
| ReservationModel.Passagers | models/reservation.model.js:7-10 | each passenger keeps the given name and first name, one per input |
| ReservationModel.New | models/reservation.model.js:4-19 | a reservation validates exactly with at least one seat and every passenger named; it holds the given trip, client, seats and status, today's date and no payment id |
| ReservationModel.Update | models/reservation.model.js:4-19 | an update validates exactly when its passengers, seats and status pass; it keeps the id and the reservation date, takes each given path (trip, client, passengers, seats, status, payment id) and keeps each path not given, and keeps a valid reservation valid |
| LegacyTrajetModel.TakeSeats | controllers/reservations.js:93-94 | taking n seats lowers the seat count by n, changes nothing else, and keeps a valid trip valid |
| LegacyReservationModel.New | models/Reservation.js:3-18 | a reservation validates exactly when all four contact fields are given and at least one seat is booked; it holds the given trip, seats, status, today's date and the contact's e-mail |
| LegacyReservations.StatusOfThrow | controllers/reservations.js:101 | a status still at 200 becomes 400, any other status set before the throw is kept |
| LegacyReservations.PayloadFor | controllers/reservations.js:112-152 | the order id is the upper-cased reservation id, the amount is price × seats × 100, and the hash is SHA1 applied twice to the raw string |
| LegacyReservations.RawStringFields | controllers/reservations.js:121 | the raw string reads back as order id, amount, "XOF", callback URL and secret when none of them holds a ';' |
| LegacyReservations.CreateReservation | controllers/reservations.js:57-180 | a missing field gives 400, an unknown trip 404, too few seats 400, each changing nothing and sending nothing; with the fields, the trip and the seats there, the payment is posted exactly when the schema accepts the pending reservation, and 400 with nothing changed otherwise; once posted, the pending reservation has been appended and the seats taken, a gateway failure then gives 500 and keeps both, and success gives 201 with the answer's redirect URL |
| LegacyReservations.GetReservationById | controllers/reservations.js:39-51 | 404 exactly for an unknown id, otherwise 200 with the stored reservation and its trip, null once the trip is gone |
| LegacyReservations.GetReservations | controllers/reservations.js:23-33 | every reservation once, newest first |
| LegacyTrajets.CriteriaOf | controllers/trajets.js:13-17 | the filter has a condition exactly for each non-empty query value, with that value; an unparseable date makes the cast fail |
| LegacyTrajets.Listing | controllers/trajets.js:22 | the listing is a reordering of the trips that meet the filter |
| LegacyTrajets.GetTrajets | controllers/trajets.js:4-32 | no reply exactly when the date cast fails, page or limit is NaN, or the skip is negative; otherwise the page is the window of the sorted listing, the total the count of matching trips, and pages `Math.ceil(total / limit)` |
| LegacyTrajets.ListedTripsMatch | controllers/trajets.js:13-22 | every listed trip is a stored trip that meets each given condition, and the page is in departure order |
| LegacyTrajets.NoConditionCountsAll | controllers/trajets.js:12-23 | with no condition given every stored trip is counted |
| LegacyTrajets.ListingCoversMatches | controllers/trajets.js:20-30 | with a positive limit, pages 1 to `pages` together list each matching trip exactly once, in departure order |
| LegacyTrajets.GetTrajetById | controllers/trajets.js:33-41 | 404 "Trajet non trouvé" exactly for an unknown id, otherwise 200 with the stored trip of that id |
| ReservationController.CheckoutOf | controllers/reservation.controller.js:86-88 | `redirect_url \|\| data` is the URL when the answer has a non-empty one, else the whole body, and nothing exactly for an empty text body |
| ReservationController.SigningStringFields | controllers/reservation.controller.js:53-61 | the signing string reads back as the upper-cased order id, the amount, "XOF", the upper-cased callback URL and secret when none of them holds a ';' |
| ReservationController.CheckBooking | controllers/reservation.controller.js:23-48 | the checks pass exactly when contact e-mail and telephone, passengers, a user, a known trip with enough seats and valid passengers are all there; a failure is 401 only for the missing user and 400 otherwise; a pass names the trip and the pending reservation with one seat per passenger |
| ReservationController.CreateReservationAndPay | controllers/reservation.controller.js:18-100 | a missing contact gives 400 and a missing user 401; the payment is posted exactly when every check passes, with amount price × passengers × 100; 201 exactly when the gateway answers with a checkout, and then the pending reservation is appended and the trip loses exactly that many seats, staying non-negative; any other outcome leaves trips and reservations as they were; every trip's seat ledger is kept |
| ReservationController.BookingKeepsAllLedgers | controllers/reservation.controller.js:41-51 | storing a pending reservation and taking its seats keeps every trip's seat ledger |
| ReservationController.GetReservationByIdPublic | controllers/reservation.controller.js:107-123 | 404 exactly for an unknown id; 500 when its client is gone; otherwise 200 exactly for the owner or an admin, with the reservation, and 403 for anyone else |
| ReservationController.DeleteReservationAdmin | controllers/reservation.controller.js:178-196 | 404 and nothing changes for an unknown id; otherwise exactly that reservation is removed, and its seats go back to its trip only when it was confirmed and the trip is still there |
| ReservationController.UpdateReservationAdmin | controllers/reservation.controller.js:160-171 | a body the validators reject gives 400 even for an unknown id, then 404 for an unknown id, both unchanged; otherwise the reservation is replaced in place by its update and seats are not touched |
| SeatLedger.AddSeats | controllers/vitepay.controller.js:43-45 | `$inc` of the free seats by n changes that count by exactly n and no other field of the trip |
| SeatLedger.AddSeatsValid | controllers/reservation.controller.js:182-185 | a trip whose seats are incremented stays a valid trip with the same id |
| SeatLedger.BookingKeepsLedger | controllers/reservation.controller.js:41-51 | taking the seats of a new pending reservation from its trip keeps that trip's free-plus-held seat total, and every other trip's total |
| SeatLedger.ConfirmKeepsLedger | controllers/vitepay.controller.js:32-35 | confirming a reservation that was not cancelled keeps every trip's seat total |
| SeatLedger.CancelKeepsLedger | controllers/vitepay.controller.js:37-45 | cancelling a reservation that was not cancelled and giving its seats back keeps its trip's seat total |
| SeatLedger.RepeatedCancelInflatesLedger | controllers/vitepay.controller.js:37-45 | cancelling an already cancelled reservation and giving its seats back again raises its trip's total by exactly its seat count |
| SeatLedger.ConfirmAfterCancelInflatesLedger | controllers/vitepay.controller.js:31-36 | confirming an already cancelled reservation, without taking its seats again, raises its trip's total by exactly its seat count |
| SeatLedger.DeleteLedger | controllers/reservation.controller.js:180-191 | deleting a confirmed reservation with its seats given back keeps the trip's total; deleting a pending one, whose seats stay taken, lowers it by exactly its seats |
| SeatLedger.OtherTripUnaffected | controllers/reservation.controller.js:180-191 | changing or removing a reservation of another trip leaves a trip's seat total as it was |
| Seed.ScriptShaped | seed.js:25-46 | the script's lists have seven distinct cities, at least four companies and at least two hours |
| Seed.CityIndex | seed.js:50 | `indexOf`: the first position holding the city, and -1 exactly when the city is not in the list |
| Seed.Dist | seed.js:49-52 | the distance is never below 150 |
| Seed.DistSymmetric | seed.js:49-52 | the distance is the same in both directions |
| Seed.DistOfVilles | seed.js:49-52 | between two listed cities the distance is 100 per step of separation, plus one step, plus 50: from 250 to 750 |
| Seed.Dates | seed.js:40-45 | seven dates, the k-th being midnight k days after today |
| Seed.BusNumber | seed.js:71 | the bus number drawn lies between 100 and 999 |
| Seed.OthersOf | seed.js:57 | the arrival cities of a departure are the six other cities, in list order |
| Seed.MakeDoc | seed.js:61-74 | a document's price is its distance times 75 |
| Seed.SeedDocs | seed.js:55-79 | the generation yields 7 × 6 × 4 × 5 × 2 documents |
| Seed.Generate | seed.js:55-79 | the five nested loops push exactly the documents of the generation, in order |
| Seed.SeededDocument | seed.js:56-74 | every document links two different listed cities, costs 75 per unit of distance, has 40 seats and a bus of capacity 50 numbered B-100 to B-999, and leaves at midnight on one of the next five days, at one of the first two hours, with one of the first four companies |
| Seed.EveryRouteSeeded | seed.js:56-60 | every ordered pair of different cities is seeded for each of the first four companies, first five days and first two hours |
| Seed.TrajetsCollection.Reseed | seed.js:82-83 | after the purge and the insertion the collection holds exactly the generated documents, and 1680 are counted as inserted |
| Stats.PeriodeOf | controllers/stats.controller.js:7 | monthly exactly for the query value "monthly", weekly for anything else or nothing |
| Stats.YearEarlier | controllers/stats.controller.js:18 | going back twelve months gives a valid calendar date |
| Stats.PeriodStart | controllers/stats.controller.js:11-22 | the window opens at a midnight |
| Stats.WeeklyStart | controllers/stats.controller.js:12-14 | the weekly window opens at the midnight seven days before today's date |
| Stats.MonthlyStart | controllers/stats.controller.js:17-20 | the monthly window opens on the first of the same month a year earlier, except that on 29 February it opens on 1 March a year earlier |
| Stats.Transactions | controllers/stats.controller.js:25-44 | one transaction per confirmed reservation dated from the start whose trip is stored, in collection order, dated as the reservation and worth the trip's price times the reserved seats |
| Stats.NoConfirmedNoTransaction | controllers/stats.controller.js:8 | with no confirmed reservation in the window there is no transaction |
| Stats.Padded | controllers/stats.controller.js:55-57 | a number below 100 padded to two characters is two digits that read back as the number |
| Stats.LabelInjective | controllers/stats.controller.js:54-58 | two dates share a label exactly when they share day and month (weekly) or month and year (monthly) |
| Stats.Tagged | controllers/stats.controller.js:52-58 | each transaction gets the label of its date and keeps its amount |
| Stats.Accumulate | controllers/stats.controller.js:60-65 | one step of the reduce is one step of the grouping: a new label opens a group at the end, and the amount goes to its label's group |
| Stats.GroupForChart | controllers/stats.controller.js:51-66 | the reduce over the transactions yields their grouping |
| Stats.GroupedStep | controllers/stats.controller.js:51-66 | grouping one more amount is one more reduce step |
| Stats.AddToShape | controllers/stats.controller.js:60-63 | a reduce step keeps every group in its place with its label and grows only the group of its label, by its amount; a new label is appended |
| Stats.GroupedDistinct | controllers/stats.controller.js:51-66 | no two groups share a label |
| Stats.GroupedFirstAppearance | controllers/stats.controller.js:51-66 | the groups come in the order their labels first appear: of two groups, the earlier one's label is carried by an amount before any amount carries the later one's |
| Stats.GroupedLabels | controllers/stats.controller.js:51-66 | a label has a group exactly when some amount carries it |
| Stats.GroupedTotals | controllers/stats.controller.js:51-66 | each group's total is the sum of the amounts carrying its label |
| Stats.GroupedSum | controllers/stats.controller.js:51-66 | the group totals add up to the sum of all amounts |
| Stats.TaggedSum | controllers/stats.controller.js:47 | the tagged amounts add up to the total revenue |
| Stats.TaggedLabelSum | controllers/stats.controller.js:52-63 | the amounts tagged with a label are the revenue of the transactions with that label |
| Stats.FourDigits | controllers/stats.controller.js:57 | a year from 1000 to 9999 is written with four digits that read back as the year |
| Stats.SwapFields | controllers/stats.controller.js:69-70 | splitting "a/b" on '/', reversing and joining with '-' gives "b-a" |
| Stats.MonthlyLabelDate | controllers/stats.controller.js:57-70 | a monthly label of a four-digit year reads back as the first day of its own month |
| Stats.ChartData | controllers/stats.controller.js:68-72 | the chart holds exactly the groups, reordered |
| Stats.ChartDistinct | controllers/stats.controller.js:51-72 | the chart's labels are distinct |
| Stats.ChartSum | controllers/stats.controller.js:47-72 | the chart's totals add up to the total revenue |
| Stats.ChartTotals | controllers/stats.controller.js:51-72 | each bar's total is the revenue of the transactions with its label |
| Stats.ChartLabels | controllers/stats.controller.js:51-72 | a label has a bar exactly when some transaction of the period carries it |
| Stats.ChartSorted | controllers/stats.controller.js:68-72 | the chart is ordered by the date its labels read as |
| Stats.In2001 | controllers/stats.controller.js:69-70 | a month and a day number with no year name a valid day of 2001, that very day when the month has it |
| Stats.WeeklyLabelDate | controllers/stats.controller.js:55-70 | a weekly label "DD/MM" of a calendar date, split, reversed and joined into "MM-DD", reads as the same month and day of 2001, whatever the date's year |
| Stats.LegacyMonthDayOf | controllers/stats.controller.js:69-70 | two digits naming a month, a dash and two digits naming a day 1 to 31 read as that month and day of 2001 |
| Stats.MonthDayOrder | controllers/stats.controller.js:68-72 | read in 2001, two days other than 29 February compare by month and then by day |
| Stats.YearEndLabelsReversed | controllers/stats.controller.js:55-72 | 31 December comes before the next day, 1 January, but its weekly label reads as the later date |
| Stats.WeeklyChartByMonthDay | controllers/stats.controller.js:68-72 | for calendar-valid dates, a transaction under a later weekly bar is never dated, in month and day, before one under an earlier bar |
| Stats.WeeklyChartInOrder | controllers/stats.controller.js:68-72 | for calendar-valid dates, the whole weekly chart is in month and day order |
| Stats.WeeklyPeriodChart | controllers/stats.controller.js:25-72 | for stored reservations with calendar-valid dates, the weekly chart of the period is in month and day order |
| Stats.TransactionsDated | controllers/stats.controller.js:25-44 | transactions from calendar-dated reservations are calendar-dated |
| Stats.ChartFacts | controllers/stats.controller.js:47-72 | one chart's labels are distinct, its totals add up to the revenue and are each their label's revenue, it is sorted by label date, and a label has a bar exactly when a transaction carries it |
| Stats.WeeklyRevenusChart | controllers/stats.controller.js:7-72 | for the weekly period and calendar-dated reservations, the chart of the selected period is in month and day order |
| Stats.GetRevenus | controllers/stats.controller.js:5-81 | the total is the period's revenue and the count its number of transactions; the chart has distinct labels, one per label some transaction carries, each total being that label's revenue and all adding up to the total, ordered by label date; with no confirmed reservation in the period all is zero and the chart empty; for the weekly period, on calendar-valid dates, the bars are in month and day order of the days their labels stand for |
| Store.IndexOf | controllers/trajet.controller.js:58 | `findById`: the position of the first document with the id, and nothing exactly when the id is missing or no document has it |
| Store.Lookup | controllers/trajet.controller.js:58-61 | the document found is stored and has the id; nothing is found exactly when no document has it |
| Store.CastObjectId | controllers/vitepay.js:85 | `findByIdAndUpdate`'s cast of the id: 24 hexadecimal digits of either case give the lower-case ObjectId string with the same digits, anything else a CastError |
| Store.CastObjectIdIgnoresCase | controllers/reservations.js:112 | an ObjectId's string form, and that form upper-cased, both cast to that ObjectId |
| Store.IndexOfUnique | controllers/trajet.controller.js:58 | with distinct ids, the lookup of a document's id finds that document |
| Store.Populate | controllers/tracking.controller.js:19 | `populate('trajet')` keeps the reservation and attaches the stored trip with its id, or nothing exactly when no trip has it |
| Store.PopulateAll | controllers/tracking.controller.js:19 | populating a list populates each reservation, in order |
| TrajetController.PopulateTrip | controllers/trajet.controller.js:58 | `populate('bus')` keeps the trip and attaches the stored bus it names, or nothing exactly when it names none or an unknown one |
| TrajetController.PopulateTrips | controllers/trajet.controller.js:91 | populating a list populates each trip, in order |
| TrajetController.TripsOfPopulate | controllers/trajet.controller.js:91 | populating changes no trip and no order |
| TrajetController.SearchTrajets | controllers/trajet.controller.js:9-44 | the empty filter counts every trip; the page is the window of the trips by departure at skip (page − 1) × limit, with page and limit through parseInt and defaults 1 and 15, and `pages` the ceiling of total over limit; a NaN or a negative skip gives 500 |
| TrajetController.SearchPageSorted | controllers/trajet.controller.js:21-28 | a returned page is in departure order, holds stored trips only, and at most `limit` of them when the limit is positive |
| TrajetController.SearchWindowSorted | controllers/trajet.controller.js:22-26 | any window of the search order is sorted by departure, holds stored trips only and at most `limit` with a positive limit |
| TrajetController.TripsOfWindow | controllers/trajet.controller.js:22-26 | the trips of a window of populated trips are the same window of the trips |
| TrajetController.SearchDefaults | controllers/trajet.controller.js:18-37 | with an empty query the reply is page 1 holding the 15 earliest trips, with every trip counted and `pages` the ceiling of total over 15 |
| TrajetController.SearchCoversAll | controllers/trajet.controller.js:19-37 | with a positive limit, pages 1 to `pages` together list every stored trip exactly once, by departure |
| TrajetController.GetTrajetByIdPublic | controllers/trajet.controller.js:56-67 | 404 "Trajet non trouvé" exactly for an unknown id, otherwise 200 with the stored trip of that id and its bus |
| TrajetController.GetAllTrajetsAdmin | controllers/trajet.controller.js:89-96 | every stored trip exactly once, each with its bus |
| TrajetController.AdminLatestFirst | controllers/trajet.controller.js:91 | the admin list runs from the latest departure to the earliest |
| TrajetController.CreateTrajet | controllers/trajet.controller.js:74-82 | 400 exactly when validation rejects the body, storing nothing; otherwise 201 with the trip the body builds, appended to the collection |
| TrajetController.UpdateTrajet | controllers/trajet.controller.js:103-116 | 400 exactly when the update validators reject the body; then 404 for an unknown id, nothing changing; otherwise 200 with the trip taking every path the body sets and keeping the others, replaced in place |
| TrajetController.DeleteTrajet | controllers/trajet.controller.js:123-133 | 404 and nothing changes for an unknown id; otherwise exactly that trip is removed with the success message; either way no trip with that id remains |
| TrajetController.GoneAfterRemove | controllers/trajet.controller.js:125 | with distinct ids, removing the trip with an id leaves none with it |
| VitePay.Shown | controllers/vitepay.js:27 | a present body value prints as itself and a missing one as "undefined" |
| VitePay.UpperAll | controllers/vitepay.js:27 | upper-cases every field, keeping their number and order |
| VitePay.UpperJoin | controllers/vitepay.js:27 | upper-casing the ';'-joined string is joining the upper-cased fields |
| VitePay.UpperKeepsNoSep | controllers/vitepay.js:27 | upper-casing never creates a ';' |
| VitePay.SignedRoundTrip | controllers/vitepay.controller.js:17 | a signature string reads back as its fields when none holds a ';', and as the upper-cased fields after upper-casing, so different field lists sign different strings |
| VitePay.AuthenticityIsUpperCase | controllers/vitepay.controller.js:18-20 | the expected authenticity has no lower-case letter, so one sent in lower-case hex is refused |
| VitePayCallback.Outcome | controllers/vitepay.controller.js:32-39 | 'confirmée' exactly for success "1", 'annulée' for anything else, a missing value included |
| VitePayCallback.OutcomeSettles | controllers/vitepay.controller.js:32-39 | a notification never leaves a reservation pending |
| VitePayCallback.Settle | controllers/vitepay.controller.js:32-47 | the writes change the number of neither trips nor reservations |
| VitePayCallback.SettleKeepsTables | controllers/vitepay.controller.js:32-47 | the writes keep ids distinct and documents valid, change no trip but the reservation's, and that one only by the reservation's seats |
| VitePayCallback.SettleKeepsLedgers | controllers/vitepay.controller.js:32-47 | a notification about a reservation not yet cancelled keeps every trip's seat total |
| VitePayCallback.CancelKeepsAllLedgers | controllers/vitepay.controller.js:37-45 | cancelling a reservation not yet cancelled and giving its seats back to its stored trip keeps every trip's seat total |
| VitePayCallback.RepeatedFailureInflatesLedger | controllers/vitepay.controller.js:37-45 | a failure notice for a reservation already cancelled gives its seats back again, raising its trip's total by exactly those seats |
| VitePayCallback.SuccessAfterFailureInflatesLedger | controllers/vitepay.controller.js:31-36 | with or without the prior-status check, a success notice for a reservation already cancelled confirms it and raises its trip's total by exactly its seats |
| VitePayCallback.SettleOnceIdempotent | controllers/vitepay.controller.js:37-45 | with the prior status checked, a failure notice for a reservation already cancelled writes nothing |
| VitePayCallback.HandleCallback | controllers/vitepay.controller.js:6-57 | 400 exactly for a notification that is not authentic and 404 exactly for an authentic one about an unknown reservation, both writing nothing; otherwise 200 with the reservation set to the notified status and, on a failure, its seats added back to its stored trip whatever its prior status |
| VitePayCallback.HandleCallbackOnce | controllers/vitepay.controller.js:37-45 | the same handler with the prior status checked: seats go back only for a reservation not cancelled already |
| VitePayHandlers.PaymentSigningStringFields | controllers/vitepay.js:26-28 | the signing string reads back as the upper-cased order id, amount, "XOF", callback URL and secret when none holds a ';' |
| VitePayHandlers.SameSigningAsBooking | controllers/vitepay.js:27 | for the order id, amount and callback URL the booking handler sends, this handler signs the same string as that handler |
| VitePayHandlers.PaymentPayload | controllers/vitepay.js:30-49 | the payload carries the body's order, amount, callback and e-mail, language 'fr', currency 'XOF', country 'ML', redirect 0, the API key and the upper-case SHA1 of the signing string |
| VitePayHandlers.CreatePayment | controllers/vitepay.js:12-63 | 500 with the fixed message exactly when the gateway call fails; otherwise 200 with the gateway's whole answer as `checkout_url` |
| VitePayHandlers.HandleCallbackAsWritten | controllers/vitepay.js:65-89 | 400 exactly for a notification that is not authentic; every authentic one throws before any write |
| VitePayHandlers.NoNotificationAcknowledged | controllers/vitepay.js:84-88 | no notification is ever acknowledged with 200, and every authentic one is lost |
| VitePayHandlers.HandleCallbackFixed | controllers/vitepay.js:79-88 | with the model imported: 400 exactly as before; an order id that is not an ObjectId throws and writes nothing; otherwise 200, and the notified status is set on the reservation the cast id names when there is one and nothing else changes |
| VitePayHandlers.CallbackFindsOrder | controllers/reservations.js:112 | given back the upper-cased order id sent with a reservation's payment, the fixed callback finds that reservation |

## Left out

- The HTTP layer is left out: Express routing, the `routes/*` files, `server.listen`, and the CORS and JSON middleware. Each handler is one member that returns a status and a payload.
- `getAllReservationsAdmin` (controllers/reservation.controller.js:135-153) is not part of this model. It is a populated listing with no logic to state.
- controllers/payments.js, controllers/ville.controller.js, controllers/paiement.controller.js and models/ville.model.js are not part of this model. They are thin wrappers and plain single queries.
- middlewares/auth.js is not part of this model. routes/client.routes.js requires it as its `protect`, so whether anything sets `req.client` for middlewares/role.js cannot be stated; RoleGuard assumes only the `protect` of middlewares/auth.middleware.js.
- Collections are sequences, not maps from id to record, because the order of `find()` results matters to the handlers. The uniqueness of `_id` is an invariant of each sequence.
- Every sort is stable here: elements with equal keys keep their natural order, as Collection.SortByStable states. For the `Array.prototype.sort` calls of the dashboard, tracking and chart handlers this is what JavaScript guarantees. A MongoDB cursor `sort` promises no order for ties, so there natural order is one choice the server may make.
- `populate` brings in the whole populated document. The field projection `populate('bus', 'numero capacite etat')` is left out.
- The handlers' generic `catch` blocks are left out:
  - a malformed ObjectId (CastError);
  - a lost connection;
  - any other server error that ends in 500 with the exception's own message.
  Where such a reply carries `err.message`, the model records only that no fixed message is sent.
- AuthController.Register: the express-validator chain of `POST /api/auth/register` (routes/auth.routes.js:9-30) is not modelled. Its checks stop nothing, because no handler reads `validationResult`. Its `trim()` and `escape()` sanitizers do rewrite `prenom` and `nom`, and the model takes the names as those sanitizers leave them.
- routes/vitepay.js is never mounted by app.js (app.js:53-67), so `createPayment` and `handleCallback` of controllers/vitepay.js serve no request. VitePayHandlers models them as handlers all the same. The callback URL `/api/vitepay/callback` sent by controllers/reservations.js:115 and controllers/reservation.controller.js:56 is served by no route either; the mounted callback is `/api/payments/vitepay/callback` (app.js:57).
- Sessions and transactions are a single commit of the new state, or the old state kept. Concurrency is not modelled: the driver bus-conflict check, the parcel code retry and the callback's seat restore all run as if requests were sequential.
- Socket.IO's server and its event wiring are not modelled beyond the presence table. Logging, dotenv, `mongoose.connect`/`disconnect`, `process.exit` and the missing-`MONGO_URI` check are also left out.
- Dates assume the server's local time zone is UTC. `toISOString`, `setDate`/`setMonth` and the `Date` constructor are modelled only for the forms the handlers produce.
- The chart sort's `new Date(...)` is modelled for the two texts the labels give: "YYYY-MM", a form ECMAScript defines, and "MM-DD", which only V8's fallback parser reads, as that month and day of 2001 in local time (Stats.LegacyMonthDay). The weekly bars are therefore in month and day order with the year ignored, so a week across 31 December puts the January bars first (Stats.YearEndLabelsReversed). Other texts, such as the label of a year below 1000, are read as no date, and engines other than V8 are not modelled.
- Stats.GetRevenus: the weekly chart is stated in month and day order of the days its labels stand for. The exact order of 29 February and 1 March, which read as the same day of 2001 and then keep the order they first appear in, is stated only through Stats.GroupedFirstAppearance and Collection.SortByStable.
- Store.IndexOf: ids are compared as exact strings. Mongoose casts a request id to an ObjectId, so an upper-case hex id finds the document whose id has the same digits in lower case, and an id that is not 24 hex digits is a CastError. Only VitePayHandlers.HandleCallbackFixed, which gets back the upper-cased order id of controllers/reservations.js:112, models that cast (Store.CastObjectId). Elsewhere the request ids are taken to be ids as stored, and the CastError paths are among the `catch` blocks left out.
- Store.Lookup: it inherits IndexOf's exact comparison of ids, so an upper-case hex id in a request finds nothing here where `findById` finds the document.
- Store.CastObjectId: a 12-character string, which some versions of the driver take as an ObjectId's raw bytes, is read as a CastError.
- Case mapping (`toUpperCase`, `toLowerCase`) is ASCII only. Other letters are left unchanged.
- Parcel weights and prices, trip prices and GPS coordinates are integers or reals here. The floating-point rounding of JavaScript numbers is left out.
- `parseInt` and unary plus on query values are modelled for an optional sign followed by decimal digits. Whitespace, hexadecimal and exponent forms, `Infinity` and fractional values are left out.
- Random draws are a finite list:
  - for the parcel tracking code, a finite list of candidate codes;
  - in add-data.js, a finite list of redraws of the arrival city.
  Where the source loops until it succeeds, ColisModel.DrawUniqueCode and AddData.DrawArrival stop without a result once the draws run out.
- ColisModel.GenerateCode and ColisModel.DrawUniqueCode: they state the code through CodeFrom and CandidateCode. That every symbol comes from the 32-symbol alphabet is stated only by ColisModel.CandidateCodeSymbols and ColisModel.AlphabetFacts.
- BusController.OverviewOf: it promises only that the overview carries the bus unchanged. The seats and the next trip are stated by BusController.OverviewSeats and BusController.OverviewNextTrip.
- Tracking.MyNextTrip: it promises only that the chosen trip is one of the client's upcoming confirmed trips. That it is the earliest is stated by Tracking.NextTripIsEarliest, and the two messages by Tracking.NoConfirmedIff and Tracking.NoUpcomingIff.
- Seed.Dist: it promises only the lower bound of 150. The formula between listed cities is stated by Seed.DistOfVilles.
- seed.js's comment says it builds 35 trips. The loops build 7 × 6 × 4 × 5 × 2 = 1680, and that count is what the model states.
- The handlers missing from the route files are not modelled: `getAvailableTrajetsForColis`, `getAvailableBuses`, `confirmReservationManually`, `deleteColis`, `getLiveTripById`, `getPerformanceInsights` and `getOverviewStats`. The routes name them but the controllers never define them.
- VitePayCallback.HandleCallbackOnce: it corrects only the repeated refund. A success notice for a reservation already cancelled still confirms it without taking its seats again, as controllers/vitepay.controller.js:31-36 does, so that trip's total grows by the reservation's seats (VitePayCallback.SuccessAfterFailureInflatesLedger). Whether such a late success should be refused or should take the seats again is not evident from the source.
- VitePayCallback.HandleCallback: an internal exception that ends in 500 (controllers/vitepay.controller.js:52-56) is left out, with the other `catch` paths.

## Findings

| source | as written | input that shows it | evidently intended | confidence | as-written member | corrected member |
|---|---|---|---|---|---|---|
| controllers/vitepay.js:85 | `Reservation.findByIdAndUpdate` names a model the file never imports, so every authentic notification throws a ReferenceError and nothing is recorded or acknowledged | any notification whose `authenticity` matches the expected SHA1 | an authentic notification sets the notified status on its reservation and is acknowledged with 200 | high; not executed | VitePayHandlers.HandleCallbackAsWritten, VitePayHandlers.NoNotificationAcknowledged | VitePayHandlers.HandleCallbackFixed |
| controllers/vitepay.controller.js:37-45 | a failure notice cancels the reservation and adds its seats back without looking at its prior status | two authentic notices with `success` "0" for the same pending reservation: the second gives the same seats back again | seats go back only once, when a reservation that was not cancelled is cancelled | high; not executed | VitePayCallback.HandleCallback, VitePayCallback.RepeatedFailureInflatesLedger | VitePayCallback.HandleCallbackOnce, VitePayCallback.SettleOnceIdempotent |
| controllers/colis.controller.js:6-26 | the handler takes no `trajet` from the body, and the schema requires one, so `save()` always fails validation | any request, even one with every field of a parcel and a trip | the body's trip is passed to `new Colis`, and a complete request creates the parcel with 201 | medium; not executed | ColisController.CreerColis | ColisController.CreerColisWithTrajet |
