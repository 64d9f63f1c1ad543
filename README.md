# Marketplace decision logic, modelled in Dafny

This project models the decision logic inside the route handlers of an
Express/MySQL marketplace backend. The database is replaced by in-memory
data: tables are `map`s held in classes, query results are sequences, and
the clock and random numbers are parameters. Each part below is one module.

- **FyFeed** (`fy_feed.dfy`): the short-video feed. Videos pass a
  performance gate, are scored and ranked, then go into buckets (promoted,
  liked, seen, favourite category, exploration). A loop interleaves one
  promoted video every six slots, and liked videos back-fill up to 50.
- **SmartFeed** (`smart_feed.dfy`): the product showcase score (conversion,
  recency, personal interest, exploration, promotion bonus), the local
  shipping boost, the ranking, and the top-five analytics lists.
- **CartOptions**, **CartRows**, **Shipping**, **Cart**: canonical ordering
  of a cart item's options, and the cart table with add, update and remove.
  Also the per-store freight rule and the cart breakdown with its totals.
- **OrderCreation**: the checkout total (`calculateDynamicTotal`) and the
  guarded stock decrement of order creation.
- **Product**: media fields, base price and stock from variations, the
  create and update checks, how a stored product is read back, and buying a
  promotion.
- **Login**: the resend-code back-off, verification, password reset, and the
  role and setup a login reports.
- **Recharge**: the PIX recharge transaction id, which is built and then
  parsed back, and the balance credit.
- **Tracking** and **ViewMetrics**: the two duration formatters, the buyer
  tracking message, and the `global_metrics` counters.
- **Admin**: attribute slug generation, attribute validation, and the city
  id check.
- **Delivery**: the order and delivery state machine of both delivery route
  files, with the payout split on confirmation.
- **Base**, **Text**, **Seqs**: shared helpers. They cover Option/Result,
  decimal rendering, `parseInt`, `split`/`join`, ASCII case mapping,
  `filter`/`map`/`slice`, and a stable descending sort.

Where code changes state step by step, it is modelled imperatively:
- the feed's bucketing and interleave loops;
- the breakdown and checkout loops, and the stock decrement;
- the cart table, the promotion ledger, the user accounts, the recharge
  ledger, the metrics table, and the order/delivery tables.

Each such method is proved against a specification function. The
properties of that function are lemmas.

## Model

| member | source | states |
|---|---|---|
| FyFeed.RateDenominator | fyRoutes.js:28 | `views_count \|\| 1` is at least 1 and equals the views when there are any, so no rate divides by zero |
| FyFeed.RecencyScore | fyRoutes.js:79-86 | 0 when the video is older than a week; otherwise score plus age/week is exactly 1; within [0,1] for a non-negative age, above 1 for a future date |
| FyFeed.Rank | fyRoutes.js:26-48 | the reported `likeRate` equals the conversion rate, the conversion rate times the denominator is the clicks, and the final score is 0.6·conversion + 0.3·true like rate + 0.1·recency, never negative |
| FyFeed.RankVideos | fyRoutes.js:26-52 | a permutation of the scored videos, sorted by final score from highest down; every entry is the ranking of an input video |
| FyFeed.RankedIdsDistinct | fyRoutes.js:42-51 | ranking keeps distinct ids distinct |
| FyFeed.FilterByTestPerformance | fyRoutes.js:57-77 | an order-preserving subsequence holding exactly the videos that pass the gate |
| FyFeed.TestPerformanceGate | fyRoutes.js:62-73 | below 100 views a video is kept; from 100 views it is kept iff clicks ≥ 1% and likes ≥ 5% of views |
| FyFeed.Partition | fyRoutes.js:210-237 | the bucketing loop fills each bucket with exactly the ranked videos of that class, in ranked order (promoted, then liked, then seen dropped, then favourite category, else exploration) |
| FyFeed.BucketsPartitionRanked | fyRoutes.js:210-237 | every ranked video lands in exactly one of the five classes (multiset equality) |
| FyFeed.BucketsKeepOrder | fyRoutes.js:210-237 | every bucket is a subsequence of the ranking and sorted by score |
| FyFeed.BucketsDisjoint | fyRoutes.js:210-237 | videos of different buckets have different ids |
| FyFeed.OrganicQueueDistinct | fyRoutes.js:240 | the promoted bucket and the organic queue priority ++ exploration share no id and each has distinct ids |
| FyFeed.AppendIfAbsent | fyRoutes.js:255-258 | the candidate is pushed only when no video with its id is in the feed |
| FyFeed.InterleaveDiverges | fyRoutes.js:243-283 | with distinct ids, one to eight promoted videos and more than five organic videos per promoted one, the loop guard still holds after any number of passes: the loop does not terminate |
| FyFeed.InterleaveFeed | fyRoutes.js:243-283 | under the stopping condition the loop ends with at most 50 videos, distinct ids, all from the promoted or organic list, each list's videos in its own order; `promoted[0]` comes first and `promoted[j]` sits at slot 6j while organic videos last; either the feed is full or both lists are used up |
| FyFeed.MixingLoop | fyRoutes.js:251-283 | the `while` loop runs the passes of the mixing state machine until its guard fails; the result is that machine's state |
| FyFeed.Backfill | fyRoutes.js:285-292 | the mixed feed is kept as a prefix; after it come liked videos whose ids are not in it yet, in ranked order, filling at most up to 50; all of them when there is room |
| FyFeed.BackfillDistinct | fyRoutes.js:285-292 | back-filling keeps ids distinct |
| FyFeed.GetFeed | fyRoutes.js:189-298 | empty pool gives an empty feed; at most 50 videos with distinct ids, each a scored pool video that passes the gate, none seen; liked videos only after all others; a live promotion that passes the gate puts a promoted video first; a feed shorter than 50 holds every pool video that passes the gate and is not seen |
| FyFeed.FeedClassified | fyRoutes.js:243-298 | the mixed part holds no liked video, the back-filled part only liked videos, and none of them was dropped as seen |
| FyFeed.FeedComplete | fyRoutes.js:251-293 | a feed shorter than 50 holds every ranked video that is not seen: the loop used up the promoted and organic buckets and the back-fill appended every liked one |
| FyFeed.FeedCovers | fyRoutes.js:195-293 | a feed shorter than 50 holds every pool video that passes the gate and is not seen, scored |
| FyFeed.LikedNotMixed | fyRoutes.js:243-293 | no video the mixing loop placed shares its id with a liked video, so the back-fill skips none of them |
| FyFeed.RankedHasEvery | fyRoutes.js:195-199 | every pool video that passes the gate is ranked |
| FyFeed.PromotionOpensFeed | fyRoutes.js:212-215 | a gated video with a live promotion (flag set, end present and after now) makes the promoted bucket non-empty |
| SmartFeed.CollectFavourites | smartVitrineRoutes.js:76-79 | the favourites list holds each history entry's category then subcategory, twice as long as the history |
| SmartFeed.ViewsDenominator | smartVitrineRoutes.js:19 | `views_count \|\| 1` is at least 1 and equals the views when there are any |
| SmartFeed.ConversionRate | smartVitrineRoutes.js:19-21 | non-negative; times the denominator it gives `total_sold` |
| SmartFeed.RecencyScore | smartVitrineRoutes.js:23-26 | never negative; at most 1 for a product not dated in the future; 0 from 30 days on, otherwise score plus days/30 is 1 |
| SmartFeed.PersonalScore | smartVitrineRoutes.js:28-35 | 0 for an anonymous viewer; 1.0 when the subcategory is a favourite, else 0.5 when the category is, else 0 |
| SmartFeed.ProductScore | smartVitrineRoutes.js:18-53 | 0.5 × conversion + 0.2 × recency + 0.2 × personal + 0.1 × random, plus 5.0 exactly when the product is promoted |
| SmartFeed.PromotionAddsWeight | smartVitrineRoutes.js:48-50 | the promotion flag adds exactly 5.0 to the score |
| SmartFeed.PromotionEndIgnored | smartVitrineRoutes.js:48 | the promotion end date has no influence on the score, so an expired promotion still gets the bonus |
| SmartFeed.ScoreBounds | smartVitrineRoutes.js:10-52 | for random in [0,1) and a past creation date the unpromoted score lies in [0, 0.5·conversion + 0.5); a promoted product scores at least 5.0, an unpromoted one with conversion below 9 below 5.0 |
| SmartFeed.LocalBoost | smartVitrineRoutes.js:99-106 | none (the lookup throws) exactly when a city is requested and the shipping options are not a list; otherwise 0.5 exactly when a city is requested, the options are a list and none serves that city, else 1.0 |
| SmartFeed.Score | smartVitrineRoutes.js:98-113 | none exactly when the lookup throws; otherwise `algo_score` is the product score times the local boost |
| SmartFeed.ScoreAll | smartVitrineRoutes.js:98-113 | none exactly when some product throws; otherwise every product scored with its own exploration factor, in order |
| SmartFeed.SmartFeed | smartVitrineRoutes.js:98-117 | the 500 answer exactly when a city is requested and some product's shipping options are not a list; otherwise a permutation of the scored products sorted by `algo_score` from highest down, each of an input product |
| SmartFeed.FeedbackIds | smartVitrineRoutes.js:120-121 | the first min(20, n) product ids of the ranking |
| SmartFeed.FeedbackIsTop | smartVitrineRoutes.js:117-121 | every product that gets the view feedback scores at least as high as every one that does not |
| SmartFeed.TopFive | smartVitrineRoutes.js:147-158 | min(5, n) items drawn from the input (a sub-multiset, so no repeats beyond the input's), sorted by the key, each scoring at least as high as every item left out |
| SmartFeed.ConversionEntries | smartVitrineRoutes.js:154-156 | one entry per product with more than five views, carrying that product's conversion percentage |
| SmartFeed.TopSoldRanking | smartVitrineRoutes.js:147 | the best-seller list is min(5, n) of the products, a sub-multiset of them, and holds the highest `total_sold` values |
| SmartFeed.TopViewedRanking | smartVitrineRoutes.js:150 | the most-viewed list is min(5, n) of the products, a sub-multiset of them, and holds the highest `views_count` values |
| SmartFeed.TopConversion | smartVitrineRoutes.js:154-158 | min(5, n) entries drawn from the n products with more than five views (a sub-multiset of their entries), sorted by conversion, each such a product with its percentage; no entry left out converts better than one shown |
| CartOptions.StandardizeOptions | cartRoutes.js:20-27 | null or a non-object gives no entries; otherwise the same entries with keys strictly ascending |
| CartOptions.SortEntries | cartRoutes.js:22-26 | the same entries, keys strictly ascending |
| CartOptions.InsertEntry | cartRoutes.js:22-26 | inserting a new key into an ascending list keeps it ascending and adds exactly that entry |
| CartOptions.AscendingUniqueness | cartRoutes.js:13-19 | two ascending lists with the same entries are equal |
| CartOptions.StandardizeCanonical | cartRoutes.js:13-19 | option objects with the same entries in any insertion order standardise, and so serialise, identically |
| CartOptions.StandardizeIdempotent | cartRoutes.js:20-27 | standardising twice equals standardising once |
| CartRows.KeyOf | cartRoutes.js:266-272 | the addressed row is the user, the product and the standardised options |
| CartRows.SameRowAnyOrder | cartRoutes.js:13-27 | the same options in another order address the same row |
| CartRows.CartTable.Add | cartRoutes.js:266-313 | NaN or a quantity below 1 is refused with no change; otherwise the matching row grows by the quantity or is created with it, and no other row changes |
| CartRows.CartTable.Update | cartRoutes.js:349-388 | a quantity below 1 is refused; a missing row gives 404; otherwise only the matching row's quantity is set |
| CartRows.CartTable.Remove | cartRoutes.js:315-347 | deletes exactly the matching row; 404 and no change when there is none |
| Shipping.FindDistrictRule | cartRoutes.js:151-153 | the first option for the buyer's city and district, or none |
| Shipping.FindCityRule | cartRoutes.js:155-157 | the first city-wide option (district null or '') for the buyer's city, or none |
| Shipping.ChosenOption | cartRoutes.js:142-163 | a district rule only when the store is in the buyer's city and a district is given, else a city-wide rule; the chosen option is always for the buyer's city |
| Shipping.Freight | cartRoutes.js:142-172 | 5.00 without shipping options or without a buyer city, or on a parse failure; otherwise the cost of the option `ChosenOption` picks (district rule before city rule), or 5.00 when it picks none |
| Shipping.FreightFromBuyerCity | cartRoutes.js:142-172 | the freight is 5.00 or the cost of an option for the buyer's city |
| Shipping.NoDistrictRuleAway | cartRoutes.js:144-153 | a store outside the buyer's city never gets a district rule |
| Shipping.DistrictRuleBeatsCityRule | cartRoutes.js:144-163 | for a store in the buyer's city, a district rule wins over a city-wide rule listed before it |
| Shipping.CityRuleAway | cartRoutes.js:144-163 | for a store elsewhere, the same options charge the city-wide rule's cost |
| Cart.FindVariation | cartRoutes.js:103-108 | the first variation whose options contain every selected key with the same value |
| Cart.Choose | cartRoutes.js:86-125 | unparsable attributes are an error; when options are selected on a product with variations, success means the first matching variation was found and gives the price (its own when non-zero, else the base price), its stock and its image (else the product's); selecting options with no match is an error; otherwise the base price, the product stock and image |
| Cart.PriceItem | cartRoutes.js:128-134 | a quantity above the available stock is an error; otherwise total = unit price × quantity |
| Cart.PricedAsChosen | cartRoutes.js:86-196 | the variation search decides the line: its error is the item's, enough stock makes the line succeed, and the pushed line carries the chosen price and image and the item's selected options |
| Cart.Finish | cartRoutes.js:202-225 | store totals are subtotal plus freight, `freteTotal` is the stores' freight sum, `valorTotal` is subtotal plus freight, and the store count is the number of distinct stores |
| Cart.FoldWellFormed | cartRoutes.js:69-200 | the loop keeps the dictionary, its key order and the store set in agreement, and the grand subtotal equals the sum of the stores' subtotals |
| Cart.StepStores | cartRoutes.js:142-183 | one item adds at most its own store, keeps every open store's freight and gives a newly opened store that item's freight |
| Cart.FoldStoresAgree | cartRoutes.js:142-183 | the dictionary holds exactly the stores of found items, each with the freight of its first item |
| Cart.CalculateCartBreakdown | cartRoutes.js:33-229 | the two loops compute the breakdown the specification function defines: all zeros without a valid parsed id, an error when the query finds no product, otherwise the priced cart of the items the lookup finds |
| Cart.AddLine | cartRoutes.js:142-196 | one pass once the line is priced: the store entry is created with its freight only when new, then the line is pushed and its total added to the store's subtotal and to `subTotalGeral`, as the fold's step defines |
| Cart.StoreTotals | cartRoutes.js:204-208 | the freight total is the sum of the stores' freight, and each store's total with shipping is its subtotal plus freight |
| Cart.BreakdownTotals | cartRoutes.js:195-224 | on success `valorTotal = subTotalGeral + freteTotal`, `freteTotal` is the sum of per-store freight fixed at each store's first item, and `numeroDeLojas` is the number of distinct stores |
| Cart.EmptyCartZero | cartRoutes.js:37-50 | with no valid positive product id the answer is all zeros and an empty breakdown |
| Cart.UnknownItemSkipped | cartRoutes.js:74-83 | an item the `productMap` lookup does not find (its product was not queried, or its raw key is not the id's rendering) changes nothing |
| Cart.FoldErrorSticks | cartRoutes.js:122-129 | once an item throws, the later items cannot undo the error |
| Cart.ItemOf | cartRoutes.js:37-39 | an item's parsed id and lookup key come from the same text: a lookup key exists only for the rendering `${n}` of its id, and then equals the parsed id |
| Cart.Known | cartRoutes.js:67-83 | an item is priced when the query found its parsed id and `productMap[product_id]` finds it, which needs the raw key to be that id's rendering |
| Cart.KnownNeedsRendering | cartRoutes.js:67-83 | an item is found exactly when the query found its parsed id and its raw key is `${id}` |
| Cart.PaddedKeySkipped | cartRoutes.js:37-83 | the key `"07"` queries product 7 but misses `productMap["7"]`: the item is skipped and the cart answers all zeros |
| Cart.BreakdownAddsUp | cartRoutes.js:202-224 | the stores' totals with shipping add up to `valorTotal` |
| Cart.BreakdownLines | cartRoutes.js:73-200 | on success every found item was priced; `subTotalGeral` is the sum of the priced lines' totals, and each store holds exactly the lines of its own products, in cart order, with their sum as `subtotal_products` |
| Cart.FoldLinesAgree | cartRoutes.js:73-200 | after any prefix of the loop the grand and per-store subtotals are the sums of the priced lines so far |
| Cart.FoldPricesAll | cartRoutes.js:74-133 | a loop that did not throw priced every item the lookup found |
| OrderCreation.UnitPrice | orderCreationRoutes.js:151 | the first truthy of `unit_price`, `product_price`, read by `parseFloat`, else the catalogue price; a price sent as the text `"0"` is truthy and kept |
| OrderCreation.ZeroTextPriceKept | orderCreationRoutes.js:151 | a `unit_price` of `"0"` makes the item free whatever the other prices say |
| OrderCreation.Summarise | orderCreationRoutes.js:187-194 | `valorTotal = subTotalProdutos + freteTotal`, the freight total is the sum over the dictionary, and the store count is the number of distinct stores |
| OrderCreation.FoldWellFormed | orderCreationRoutes.js:136-190 | the freight dictionary's keys are exactly the stores counted, each once in key order |
| OrderCreation.FoldAgrees | orderCreationRoutes.js:136-190 | the corrected loop's subtotal is Σ price × quantity over counted items, and each counted store is charged once at the freight of its first item |
| OrderCreation.DynamicTotalMeaning | orderCreationRoutes.js:109-194 | the total is the counted items' subtotal plus one freight per distinct store, and the store count is the number of distinct stores |
| OrderCreation.SkippedItem | orderCreationRoutes.js:142-149 | an item with an unknown product or quantity 0 adds neither subtotal nor store |
| OrderCreation.AsWrittenAgreesWithoutFreeFreight | orderCreationRoutes.js:156 | when no store is charged a freight of 0, the check as written gives the intended totals |
| OrderCreation.FreeFreightRecomputed | orderCreationRoutes.js:156 | a concrete order where the as-written loop charges 7.00 freight for a store whose first item ships free, against 0.00 intended |
| OrderCreation.CalculateDynamicTotal | orderCreationRoutes.js:109-195 | the loop computes the corrected total; no valid product id is an error |
| OrderCreation.TakeLine | orderCreationRoutes.js:70-99 | a missing product id or a NaN or sub-1 quantity is refused; otherwise the stock drops by the quantity only when it covers it, else the order fails |
| OrderCreation.TakeAllMeaning | orderCreationRoutes.js:69-100 | when the whole order goes through, every line was valid and each product lost exactly its total demand, and no non-negative stock went negative |
| OrderCreation.TakeAllErrorSticks | orderCreationRoutes.js:69-100 | the first failing line decides the outcome |
| OrderCreation.Inventory.PlaceLines | orderCreationRoutes.js:69-100 | the stock after the loop is the specification's result; on an error the stock is unchanged (the transaction rolls back) |
| Product.ProcessMediaUrls | productRoutes.js:19-24 | primary is the first URL or null; detail is the rest only when there are two or more URLs; a falsy video id is null |
| Product.MediaKeepsImages | productRoutes.js:19-24 | primary followed by the details gives back the submitted images |
| Product.MinPrice | productRoutes.js:83-84 | the least positive variation price, attained by some variation |
| Product.VariationsPrice | productRoutes.js:82-85 | 0 exactly when no variation has a positive price, otherwise the least positive one |
| Product.VariationsStockBounds | productRoutes.js:85 | non-negative variation stocks sum to a non-negative total at least each stock |
| Product.CreateProduct | productRoutes.js:65-100 | refused without a store; refused when name or subcategory is missing or the base price is not positive; refused when shipping options lack the store's own city |
| Product.UpdateShippingCheck | productRoutes.js:254-259 | refused exactly when shipping options are given and none is for the store's city |
| Product.ReadOption | productRoutes.js:36-39 | a district of '' or null reads as null; city and cost unchanged |
| Product.PromotionShows | productRoutes.js:51-55 | the flag is cleared exactly when the end date is before now |
| Product.ParseProductDetails | productRoutes.js:26-58 | unparsable images or shipping become []; missing attributes become empty definitions and variations; the promotion flag cleared exactly when expired |
| Product.NewPromotionEnd | productRoutes.js:333-345 | days are added to the current end while the promotion is live, otherwise to now |
| Product.PromotionExtends | productRoutes.js:333-345 | the new end is at least one day after now and later than any previous end, and the promotion shows at every moment up to it |
| Product.PromotionsAddUp | productRoutes.js:333-345 | two purchases at the same moment equal one purchase of all the days |
| Product.PromotionLedger.Promote | productRoutes.js:295-357 | days < 1 refused; another seller's product refused; a seller without a balance row is a server error; a balance below 5 × days refused with no change; otherwise the balance drops by exactly 5 × days, fractional days included, while the end moves by the whole days of `parseInt(days)` |
| Login.ResendWaitTime | login.js:30-38 | 1, 2, 5 minutes for the first attempts, then 10; always one of those |
| Login.WaitNonDecreasing | login.js:30-38 | the wait never shrinks as attempts grow |
| Login.RateLimit | login.js:157-163 | refused iff less than wait(attempts) minutes passed since the last request (missing counts as 0), with the retry minutes the ceiling of the remainder, at least 1 |
| Login.CeilDiv | login.js:163 | the smallest whole number of minutes covering the remaining time |
| Login.VerifyAccount | login.js:110-123 | succeeds only on an unverified account whose pending code equals the upper-cased code; marks it verified and clears the code |
| Login.VerifyOnce | login.js:110-123 | a verified account accepts no further code |
| Login.RequestCode | login.js:157-199 | refused under the rate limit with no change; otherwise the new code and time are stored and attempts grow by one |
| Login.RequestCodeBacksOff | login.js:157-199 | right after a code is sent another is refused for the next wait, which is no shorter |
| Login.ResetAccount | login.js:276-298 | succeeds only with the pending code; sets the password, clears the code, zeroes attempts and the last request |
| Login.ResetStartsOver | login.js:276-298 | after a reset the code cannot be reused and the rate limit starts over (no last request, no attempts) |
| Login.RoleAndSetup | login.js:359-379 | admin before seller before buyer; a seller needs store setup iff there is no store; a buyer needs address setup iff an address field is missing |
| Login.Users.Verify | login.js:103-135 | a missing e-mail or a code not of 6 characters is a bad request; an unknown e-mail is refused; otherwise the account is verified exactly as the specification function says |
| Login.Users.ResendCode | login.js:137-210 | bad requests refused; the rate limit applies; an accepted request stores the new code and reports the next wait |
| Login.Users.ForgotPassword | login.js:212-267 | an unknown e-mail gets the same answer and no change; a known one is rate-limited and then gets a new code |
| Login.Users.ResetPassword | login.js:269-311 | a password shorter than 6 characters is a bad request; otherwise the reset of the specification function |
| Login.Users.LoginOutcome | login.js:313-379 | a wrong e-mail or password is refused; an unverified account is refused even with the right password; otherwise the role and setup |
| Login.VerifiedCanLogin | login.js:338-343 | a verified account with the right password logs in |
| Recharge.Cents | recarga.js:55 | the amount in cents rounded to the nearest whole cent |
| Recharge.CreatePix | recarga.js:47-55 | NaN or less than 5.00 is refused; otherwise the id `RECARGA_<seller>_<cents>` |
| Recharge.NumberOfText | recarga.js:91 | `Number()` on the seller part: digits give their value; blank text gives 0; any number read needs a digit in the text |
| Recharge.RadixNumber | recarga.js:91 | a `0x`, `0o` or `0b` literal is a number iff at least one digit of that radix follows and nothing else |
| Recharge.SignedDecimal | recarga.js:91 | digits, and digits after a minus, give their (negated) value; unsigned text is read as a decimal literal; a value needs a digit |
| Recharge.NumberIgnoresSpaceAround | recarga.js:91 | `Number()` ignores white space around the text |
| Recharge.NumberOfNegative | recarga.js:91 | a minus followed by digits is the negated value |
| Recharge.NatToStringNumber | recarga.js:91 | `Number()` of a rendered id gives that id |
| Recharge.PaddedSellerMatches | recarga.js:91-93 | a seller part of the caller's id padded with spaces passes the loose `!=` check |
| Recharge.NumberOfZeroFraction | recarga.js:91 | digits followed by `.0` convert to the value of the digits |
| Recharge.ZeroFractionSellerMatches | recarga.js:91-93 | a seller part written as the caller's id followed by `.0` passes the loose `!=` check |
| Recharge.ParseTransactionId | recarga.js:82-88 | accepted only with exactly three `_`-separated parts whose first is `RECARGA`; the seller is the second part |
| Recharge.TransactionIdParts | recarga.js:55-82 | the id splits back into its three parts |
| Recharge.ParseOfParts | recarga.js:82-88 | an id of the prefix, a seller and a number of cents parses to that seller and cents/100 |
| Recharge.ParseOfTransactionId | recarga.js:55-88 | parsing the id built for a seller and a number of cents gives both back |
| Recharge.TransactionIdRoundTrip | recarga.js:47-97 | the id `create-pix` hands out parses back to the same seller and to the cents/100 amount, within half a cent of the request; only that seller passes the ownership check, and the credit goes to that seller's row |
| Recharge.NonNumericSellerRefused | recarga.js:91-93 | a seller part without any digit matches the caller exactly when it is blank and the caller's id is 0 |
| Recharge.PaymentCheck | recarga.js:78-93 | a malformed id is refused, then an id whose seller part does not loosely equal the caller (403); otherwise what the id holds |
| Recharge.LongestDecimal | recarga.js:17 | MySQL's text-to-number reading: 0, or the value of some prefix that is a decimal literal, the longest one when the whole text is one |
| Recharge.LongestDecimalIsLongest | recarga.js:17 | the value is that of the longest prefix that is a decimal literal (`5abc` reads 5), and 0 when no prefix is one |
| Recharge.CreditTarget | recarga.js:17-27 | the `users` row `WHERE id = <seller text>` selects is the integer MySQL reads the text as, if it is one |
| Recharge.CreditTargetOfRendering | recarga.js:17-27 | a rendered id selects that id's row |
| Recharge.HexNumber | recarga.js:91 | `Number("0x5")` is 5 |
| Recharge.HexSqlNumber | recarga.js:17 | MySQL reads `0x5` as 0 |
| Recharge.HexSellerCreditsUserZero | recarga.js:17-91 | `0x5` passes user 5's ownership check but selects row 0 |
| Recharge.HexIdPassesCheck | recarga.js:78-97 | an id splitting into `RECARGA`, `0x5`, `500`, paid by user 5, passes both checks with 5.00 and credits row 0 |
| Recharge.Ledger.UpdatePendingBalance | recarga.js:13-28 | the row is the one `WHERE id = <text>` selects; none is an error, checked before the amount; a NaN amount fails; otherwise exactly the amount is added to that row; on any error nothing changes |
| Recharge.Ledger.SimulatePixPayment | recarga.js:78-106 | the refusals of the checks, with no change; otherwise the credit goes to the row MySQL reads the seller text as (an error with no change when there is none), a NaN amount fails after that check, and the row gains exactly the id's amount |
| Recharge.Ledger.Credit | recarga.js:95-106 | a refusal passes through; an accepted payment credits the row its seller text selects, or is an error with no change |
| Tracking.Trunc | trackingService.js:10-12 | toward zero: the floor for non-negative values, and for negative ones the integer r ≤ 0 with r − 1 < x ≤ r |
| Tracking.HmsReconstructs | trackingService.js:10-12 | for t ≥ 0, 3600h + 60m + s is the whole seconds of t, with m and s below 60 |
| Tracking.HmsParts | trackingService.js:14-18 | hours and minutes shown only when positive, seconds when positive or when nothing else shows; 1 to 3 parts in h, m, s order |
| Tracking.Render | trackingService.js:15-17 | a part's text is its number followed by its unit letter |
| Tracking.RenderAll | trackingService.js:15-17 | one text per part, each ending in that part's unit letter |
| Tracking.JoinWordsEndsWithLast | trackingService.js:19 | the parts joined with spaces end with the last part's text |
| Tracking.JoinedWordsEndInUnit | trackingService.js:19 | joined texts whose last one ends in h, m or s end in that letter and are not 'N/A' |
| Tracking.FormattedPartsEndInUnit | trackingService.js:14-19 | parts whose last one has a unit letter format to text ending in that letter, never 'N/A' |
| Tracking.FormatTimeShowsUnits | trackingService.js:8-20 | a duration always renders to non-empty text ending in h, m or s, never 'N/A' |
| Tracking.FormatTime | trackingService.js:7-20 | null or NaN gives `N/A`; otherwise the positive hour, minute and second parts (the seconds when none is positive) joined by spaces |
| Tracking.DeliveringMessage | trackingService.js:91-110 | a seller's own delivery wins over the delivery status; each status has its message |
| Tracking.BuyerTrackingMessage | trackingService.js:77-115 | Pending Payment, Completed and Processing have fixed messages; Delivering uses the delivery; any other status gives 'Status: ' + status |
| Tracking.MessageIgnoresDeliveryOutsideDelivering | trackingService.js:79-90 | outside Delivering the message does not depend on the delivery |
| Tracking.SellerDeliveryIgnoresStatus | trackingService.js:92-96 | a seller's own delivery shows the same message whatever its status |
| ViewMetrics.FormatTime | viewRoutes.js:7-22 | null or NaN give all zeros; otherwise seconds unchanged and minutes, hours, days the floors of seconds/60, /3600, /86400 |
| ViewMetrics.UnitsOrdered | viewRoutes.js:11-21 | for s ≥ 0, 0 ≤ days ≤ hours ≤ minutes ≤ seconds, hours = minutes div 60 and days = hours div 24 |
| ViewMetrics.Counter | viewRoutes.js:100-106 | a missing key reads as 0 |
| ViewMetrics.Upsert | viewRoutes.js:32-71 | the key is created with the amount or grows by it; every other key unchanged |
| ViewMetrics.ReadAnalytics | viewRoutes.js:85-114 | missing counters show as zero views and zero time; the time is the session counter formatted |
| ViewMetrics.GlobalMetrics.HomepageView | viewRoutes.js:29-46 | the views counter is upserted by one |
| ViewMetrics.GlobalMetrics.SessionDuration | viewRoutes.js:54-78 | NaN or a duration ≤ 0 is refused with no change; otherwise the session counter grows by it |
| ViewMetrics.HomepageViewCounted | viewRoutes.js:32-100 | a homepage hit shows as exactly one more view and leaves the session time alone |
| ViewMetrics.SessionCounted | viewRoutes.js:65-106 | an accepted session adds its duration to the seconds shown and leaves the views alone |
| Admin.StripMarks | adminRoutes.js:370 | the combining marks are removed and the letters and digits kept |
| Admin.CollapseRuns | adminRoutes.js:370 | each run of other characters becomes one `_`: only slug characters, no double `_`, letters and digits kept |
| Admin.TrimUnderscores | adminRoutes.js:370 | at most one `_` off each end; on text without double `_` neither end is `_` |
| Admin.GenerateSlug | adminRoutes.js:370 | only a–z, 0–9 and `_`, no leading or trailing `_`, no two adjacent `_` |
| Admin.SlugKeepsLettersAndDigits | adminRoutes.js:370 | the slug keeps exactly the letters and digits of the lower-cased name, in order |
| Admin.GenerateSlugIdempotent | adminRoutes.js:370 | a generated slug regenerates to itself |
| Admin.FinalSlug | adminRoutes.js:370 | a supplied non-empty slug is used verbatim, otherwise a generated one |
| Admin.PrepareAttribute | adminRoutes.js:365-371 | for create, and the same for update at lines 389-394: refused iff subcategory, name or type is missing; fields passed through; `required` defaults to true |
| Admin.PreparedSlugUsable | adminRoutes.js:370 | a stored slug is empty only when none was supplied and the name has no letter or digit |
| Admin.CheckCityId | adminRoutes.js:44-46 | refused iff `parseInt(cityId)` is NaN |
| Admin.CityIdLeadingDigits | adminRoutes.js:44-46 | white space in front is skipped; an id starting with a digit passes whatever follows, except `0x` with no hex digit after it; an id that is empty or starts with neither white space, a digit nor a sign is refused |
| Delivery.OrderStepForward | deliveryRoutes.js:211-214 | every order status move goes exactly one step forward, so no status is revisited and Completed is final |
| Delivery.ParseMethod | deliveryRoutes.js:176-180 | only Seller, Contracted and Marketplace are accepted |
| Delivery.InitialDelivery | deliveryRoutes.js:217-225 | Accepted with a person assigned, otherwise Requested |
| Delivery.ConfirmPayout | deliveryRoutes.js:470-503 | seller or contracted delivery credits the seller total − 5%; marketplace with a person credits the person 5.00 and the seller total − 5% − 5.00; credits plus fee equal the total |
| Delivery.Credit | deliveryRoutes.js:475-497 | the amount is added to that user only; an unknown user changes nothing |
| Delivery.ApplyPayout | deliveryRoutes.js:475-497 | the courier is credited first, then the seller: each gains exactly their share (both shares when they are the same user), and nobody else changes |
| Delivery.PayoutConserves | deliveryRoutes.js:470-503 | what a confirmation pays out plus the fee is the order total |
| Delivery.Logistics.SetAvailable | deliveryRoutes.js:403-414 | only that person's availability changes |
| Delivery.Logistics.PaymentApproved | mercadoPagoRoutes.js:150-153 | an order waiting for payment moves to Processing; nothing else changes |
| Delivery.Logistics.SetDeliveryMethod | deliveryRoutes.js:173-238 | invalid method, another seller's order, an order not Processing, or Contracted without a contracted person are refused with no change; otherwise Delivering with the method and, unless Seller, one delivery row |
| Delivery.Logistics.Dispatch | deliveryRoutes.js:244-281 | only the owner's Processing order moves to Delivering with method Seller |
| Delivery.Logistics.Accept | deliveryRoutes.js:392-424 | a busy person is refused; only a Requested unassigned delivery is accepted, with that person, who becomes unavailable |
| Delivery.Logistics.AssignedPerson | deliveryRoutes.js:448-455 | the order's delivery person, when there is one |
| Delivery.Logistics.CompletedOrders | deliveryRoutes.js:506 | the order's status becomes Completed |
| Delivery.Logistics.ConfirmedDeliveries | deliveryRoutes.js:507 | the order's delivery becomes Delivered_Confirmed |
| Delivery.Logistics.Confirm | deliveryRoutes.js:435-517 | needs Delivering, the matching code and the buyer or the assigned person; pays out as `ConfirmPayout`, frees the person, ends Completed and Delivered_Confirmed |
| Delivery.Logistics.LogisticsDispatch | logisticsAndConfirmationRoutes.js:86-151 | only the owner's Processing order moves to Delivering with method Seller, and its single delivery row is Accepted with method Seller |
| Delivery.Logistics.LogisticsConfirm | logisticsAndConfirmationRoutes.js:156-214 | needs Delivering and the matching code; allowed iff the caller is the buyer or the seller of a Seller delivery; credits the seller; ends Completed and Delivered_Confirmed |
| Delivery.LogisticsSellerGetsTotal | logisticsAndConfirmationRoutes.js:191-196 | with a fee of 0 the seller is credited exactly the order total |
| Text.ParseInt | recarga.js:88 | `parseInt`: leading white space skipped; a digit start reads the digit prefix (a `0x` start reads hexadecimal, NaN with no hex digit); a sign negates or keeps the unsigned reading of the rest; empty text or any other start is NaN |
| Text.ParseUnsigned | recarga.js:88 | non-negative; a digit start gives the decimal value of the digit prefix; with a `0x` prefix a value exists iff a hex digit follows, and is the value of the hex digit prefix |
| Text.ParseIntSkipsSpace | recarga.js:88 | white space in front does not change the result of `parseInt` |
| Text.DecimalPrefix | cartRoutes.js:37-39 | the leading decimal digits as a number, present iff the text starts with a digit |
| Text.ParseDecimalInt | cartRoutes.js:37-39 | `parseInt(s, 10)`: leading white space skipped, an optional sign, then the leading decimal digits (no hex reading); empty text or any other start is NaN |
| Text.KeyIndex | cartRoutes.js:67-79 | the id a property key names: present exactly for a canonical decimal (no sign, space or leading zero), with its value |
| Text.Trim | recarga.js:91 | `Number()`'s trimming: empty iff the text is all white space; ends not white space; text with non-space ends unchanged; keeps a digit only if the text had one |
| Text.TrimPadded | recarga.js:91 | a text with non-space ends padded by a space on each side trims back to itself |
| Text.DecimalValue | recarga.js:91 | a decimal literal with optional fraction and exponent: digits give their value; a value is non-negative and needs a digit |
| Text.DecimalOfZeroFraction | recarga.js:91 | digits followed by `.0` have the value of the digits |
| Text.ParseIntOfRendering | recarga.js:55-88 | parsing a rendered number gives it back |
| Text.SplitJoin | recarga.js:55-82 | splitting undoes joining when no part holds the separator |
| Text.ToUpperIdempotent | login.js:110 | upper-casing twice is upper-casing once |

## Left out

- SQL, transactions and connections are left out. Tables are maps, and "no row affected" is a failed guard. A rollback shows as the state left unchanged on an error.
- The clock is a `now` parameter (milliseconds). Random numbers are parameters too: the showcase's exploration term, and the codes from `generateCode`.
- Floating point is modelled as exact `real` arithmetic. `toFixed` rounding of totals and percentages is left out.
- JSON parse and stringify: parsed structures are modelled directly, and a parse failure is a datatype case. In the showcase, a shipping column that fails to parse or is not a list is `NotAList`, which makes the whole feed fail when a city is requested (SmartFeed.SmartFeed).
- Recharge.CreatePix and Recharge.TransactionId: the seller id is a `nat`, as a key of the `users` table; a negative id is not modelled.
- Recharge.NumberOfText: `Number()` is exact `real` arithmetic, so a literal too large for a double is a number rather than `Infinity`. The text `Infinity`, with or without a sign, is treated as not a number.
- `toUpperCase`, `toLowerCase` and `normalize('NFD')` are modelled on ASCII letters only. The slug starts from text that is already decomposed.
- The order of `Object.values` and `Object.keys` is modelled as key creation order, for both the cart and the checkout dictionaries.
- CartOptions.StandardizeOptions and CartOptions.SortEntries: keys are ordered by code point. JavaScript's `sort()` compares UTF-16 code units, which differs for characters outside the Basic Multilingual Plane. An object also lists integer-like keys first, in numeric order, whatever the sort did; that key order is not modelled.
- JavaScript's sort is modelled as a stable insertion sort.
- bcrypt is modelled as password equality. JWT, the auth middleware, registration and the push token update are left out.
- FyFeed.InterleaveFeed: proved only under the stopping condition. FyFeed.InterleaveDiverges shows that outside it the loop never ends, so no general termination is claimed.
- FyFeed.GetFeed: requires that the pool is empty or the mixing loop stops on its buckets, for the reason above.
- FyFeed.RecencyScore and SmartFeed.RecencyScore: ages are whole milliseconds. Daylight-saving and date parsing are left out.
- Product.NewPromotionEnd: adds whole days as milliseconds. `setDate` calendar and DST behaviour is not modelled.
- Delivery.Logistics: one delivery row per order. A second row for the same order is not modelled.
- The seller metrics SQL aggregates (`getSellerMetrics`) are left out.
- The listing, detail and delete routes are left out because they are thin CRUD.
- Notifications, e-mail, uploads and the Mercado Pago preference call are left out. Only the status move on an approved payment is modelled.
- The showcase's view-counter feedback and the video sale attribution are fire-and-forget side effects. Only the ids the feedback targets are modelled (SmartFeed.FeedbackIds).
- NaN cart quantities (`parseInt` of the item's quantity in the breakdown) are not modelled: the breakdown's quantity is an integer.
- CartRows.CartTable.Update: the quantity is an integer. The route never parses it (cartRoutes.js:351-362), so a missing or non-numeric quantity passes the `quantity < 1` guard and reaches the database; that path is not modelled.
- Shipping.Freight: an option's cost is a number. A cost that `parseFloat` reads as NaN (cartRoutes.js:160) would make the freight NaN; that is not modelled.
- OrderCreation.CalculateDynamicTotal: an item's quantity is an integer. A quantity that `parseInt` reads as NaN is not 0, so the source counts the item and the total becomes NaN (orderCreationRoutes.js:148); that is not modelled.
- Recharge.CreditTarget: MySQL's reading of the seller text is modelled for ASCII white space and decimal literals, exponents included, as exact reals. MySQL's double rounding and overflow are not modelled, nor the warning it raises on trailing text.
- OrderCreation.UnitPrice: a present price is a number. A truthy text that `parseFloat` reads as NaN (orderCreationRoutes.js:151) would make the total NaN; that is not modelled.
- Ids are positive. A user, city or district id of 0 is present in the model, but falsy in the source: `buyerDistrictId` and `buyerCityId` (cartRoutes.js:146, 151), `!deliveryPersonId` (deliveryRoutes.js:205) and `order.delivery_person_id` (deliveryRoutes.js:481) treat it as absent. This concerns Shipping.Freight, Shipping.SearchesDistrict, Delivery.Logistics.SetDeliveryMethod and Delivery.ConfirmPayout.
- SmartFeed.LocalBoost: city ids are integers, so the loose `opt.city_id == userCityId` between an option's id and the query text (smartVitrineRoutes.js:104) is an integer comparison. A `null` entry in the shipping list, which throws when `.some` reads its `city_id`, is not represented.
- Product.PromotionLedger.Promote: `days` is a number. A non-numeric string passes the `!days || days < 1` guard in the source (the comparison with NaN is false) and makes the cost NaN; that is not modelled.

## Findings

| source | as written | input that shows it | evidently intended | confidence | as-written member | corrected member |
|---|---|---|---|---|---|---|
| orderCreationRoutes.js:156 | `if (!storeFreteCosts[storeId])` also re-decides the freight of a store already charged 0.00, so a later item of that store can replace a free freight | store 9; item 1 (product 1, quantity 1) whose city-3 rule costs 0, then item 2 (product 2, quantity 1) whose city-3 rule costs 7; buyer in city 3: freight 7.00 as written | freight decided once at each store's first counted item: 0.00 | not executed | OrderCreation.FreeFreightRecomputed | OrderCreation.DynamicTotalMeaning |
| fyRoutes.js:251-283 | at a slot divisible by 6, a promoted video already in the feed is skipped with `continue` without pushing anything, so the same slot comes round again on the next pass while organic videos remain | one promoted video and seven organic videos, all ids distinct: the promoted video fills slot 0, five organic ones fill slots 1-5 and slot 6 then retries the promoted video on every pass | the loop stops with at most 50 distinct videos, a promoted one at every 6th slot while promoted and organic videos last | not executed | FyFeed.InterleaveDiverges | FyFeed.InterleaveFeed |
