# PrimePicks storefront logic in Dafny

This project models the behaviour behind the PrimePicks e-commerce demo's storefront, written in Dafny. The demo is a React/Next.js application, and the model leaves its rendering aside. It covers four pieces:

- **Checkout wizard** (`CheckoutRules`, `CheckoutFlow`). This is the four-step Shipping → Delivery → Payment → Review flow.
  - Its per-field validators: email, phone, ZIP, and a "required" rule for every other field.
  - The `validatedFields` list and the `errors` map those validators maintain.
  - The guard that gates Continue.
  - The Edit jumps from Review.
  - The order totals: subtotal, shipping lookup, 8% tax and total.
  - The completion snapshot.
  - The quantity buttons of the order summary.
- **Storefront page** (`ShopPage`). This covers:
  - the product catalogue;
  - the search handler and the sidebar-filter handler that decide which products are listed;
  - the cart edits and the cart badge count;
  - the login action;
  - the view switches.
- **Filter sidebar** (`Filters`). This covers:
  - the filter-criteria record and its check/uncheck edits;
  - the price-range inputs;
  - "Clear all";
  - the active-filter count and the chips;
  - chip removal;
  - the brand search with its popular/other split;
  - the collapsible sections.
- **Hero carousel** (`HeroCarousel`). This is the slide index under the arrows, the dots and the 100 ms progress timer, plus the hover pause.

Shared modules:
- `Text` models the ECMAScript string operations the code relies on:
  - `trim` and `\s`, over the full ECMAScript white-space and line-terminator set;
  - ASCII `toLowerCase`;
  - `includes`;
  - `parseInt`, which skips leading white space, takes a sign and a `0x` prefix, reads the longest digit prefix, and gives `NaN` as `None`;
  - integer formatting in template literals.
- `Seqs` models the order-preserving `Array.prototype.filter`.
- `Wrappers` holds `Option`.

State that the components change in place is a class:
- `CheckoutFlow.Checkout`;
- `Filters.FilterSidebar`;
- `ShopPage.Storefront`;
- `HeroCarousel.Carousel`.

Each React setter call is a method with a `modifies` frame and its full new state. Pure expressions are functions, and the properties are lemmas over them.

Design choices:
- Money and ratings are `real`, with exact decimals.
- Price-range bounds are `int`.

Where the code does something other than its labels suggest, the model follows the code:
- **Phone rule.** It counts characters of the class `[\d\s\-()]`, not digits. Ten dashes pass (`CheckoutRules.PhoneCountsCharacters`).
- **Completing an order.** The wizard itself does not reset. The page empties the cart and switches back to browsing.

## Model

| member | source | states |
|---|---|---|
| Text.Trim | src/components/ecommerce/checkout-flow.tsx:119 | `String.prototype.trim`: the leading and then the trailing ECMAScript white space and line terminators removed; its meaning is stated by `Text.TrimmedNonEmptyIff` |
| Text.Contains | src/app/page.tsx:210-211 | `String.prototype.includes`: the needle is a prefix of the haystack or of one of its tails; its meaning is stated by `Text.ContainsIff` |
| Text.ParseInt | src/components/ecommerce/filter-sidebar.tsx:410-422 | `parseInt` with no radix: leading white space skipped, one optional sign, a `0x` prefix for radix 16, the longest digit prefix read, `None` for `NaN`; its properties are stated by `Text.ParseIntOfIntToString` and `Text.ParseIntOfNonNumeric` |
| Text.TrimmedNonEmptyIff | src/components/ecommerce/checkout-flow.tsx:119 | `value.trim().length > 0` holds exactly when the value has a character outside the ECMAScript white-space set |
| Text.ContainsIff | src/app/page.tsx:210-211 | `includes` holds exactly when the needle occurs at some position of the haystack |
| Text.ToLower | src/app/page.tsx:210-211 | ASCII lower-casing keeps the length and maps each character on its own |
| Text.ParseIntOfIntToString | src/components/ecommerce/filter-sidebar.tsx:407-422 | `parseInt` reads back every integer the price fields display |
| Text.ParseIntOfNonNumeric | src/app/page.tsx:247 | text starting with anything but white space, a sign or a digit parses to `NaN` |
| CheckoutRules.IsValidEmail | src/components/ecommerce/checkout-flow.tsx:107 | the email pattern `^[^\s@]+@[^\s@]+\.[^\s@]+$` as a predicate; what it accepts is stated by `CheckoutRules.EmailValidIffShape` |
| CheckoutRules.IsValidPhone | src/components/ecommerce/checkout-flow.tsx:111 | the phone pattern `^\+?[\d\s\-\(\)]{10,}$` as a predicate; what it accepts is stated by `CheckoutRules.PhoneValidIff` |
| CheckoutRules.IsValidZip | src/components/ecommerce/checkout-flow.tsx:115 | the ZIP pattern `^\d{5}(-\d{4})?$` as a predicate; what it accepts is stated by `CheckoutRules.ZipValidIff` |
| CheckoutRules.FieldRule | src/components/ecommerce/checkout-flow.tsx:105-121 | the case-sensitive switch on the field name: email, phone and zipCode by their patterns, every other name by a non-blank trimmed value; stated by `CheckoutRules.ValidateMeaning` |
| CheckoutRules.EmailValidIffShape | src/components/ecommerce/checkout-flow.tsx:107 | the email pattern accepts exactly the strings with no white space, a single '@' after a non-empty part, and a '.' that is neither the first nor the last character after the '@' |
| CheckoutRules.PhoneValidIff | src/components/ecommerce/checkout-flow.tsx:111 | the phone pattern accepts at least ten class characters, or a '+' followed by at least ten of them |
| CheckoutRules.PhoneCountsCharacters | src/components/ecommerce/checkout-flow.tsx:111 | ten dashes and "+1234567890" pass, nine digits fail |
| CheckoutRules.ZipValidIff | src/components/ecommerce/checkout-flow.tsx:115 | a ZIP is five digits, optionally followed by '-' and four digits, and nothing else |
| CheckoutRules.ZipExamples | src/components/ecommerce/checkout-flow.tsx:115 | "10001" and "10001-1234" pass, "abc" fails |
| CheckoutRules.ErrorMessage | src/components/ecommerce/checkout-flow.tsx:105-121 | each field's message is one of the four texts of the switch and is never empty, so an empty error text can only mean a passing value |
| CheckoutRules.Validate | src/components/ecommerce/checkout-flow.tsx:101-121 | the verdict is valid exactly when the error text is empty, and an invalid verdict carries that field's message |
| CheckoutRules.ValidateMeaning | src/components/ecommerce/checkout-flow.tsx:105-121 | what each field's rule accepts, without regular expressions: email by shape, phone by its two forms, zipCode as five digits with an optional "-dddd", any field other than email, phone and zipCode by a non-white-space character |
| CheckoutRules.EmailExamples | src/components/ecommerce/checkout-flow.tsx:107 | "a@b.co" passes, "not-an-email" fails |
| CheckoutRules.ShippingCost | src/components/ecommerce/checkout-flow.tsx:97 | shipping is the price of the first option with the selected id, and 0 when none has it |
| CheckoutRules.DeliveryPrices | src/components/ecommerce/checkout-flow.tsx:90-97 | standard 5.99, express 12.99, overnight 24.99, anything else 0 |
| CheckoutRules.Subtotal | src/components/ecommerce/checkout-flow.tsx:96 | the sum of price × quantity over the cart; stated by `CheckoutRules.SubtotalAppend`, `CheckoutRules.SubtotalNonNegative` and `CheckoutRules.TotalsProperties` |
| CheckoutRules.ComputeTotals | src/components/ecommerce/checkout-flow.tsx:96-99 | subtotal, shipping, tax and total of the order summary; stated by `CheckoutRules.TotalsProperties` |
| CheckoutRules.SubtotalAppend | src/components/ecommerce/checkout-flow.tsx:96 | the subtotal of two carts joined is the sum of their subtotals |
| CheckoutRules.TotalsProperties | src/components/ecommerce/checkout-flow.tsx:96-99 | total = subtotal + shipping + tax, tax = 0.08 × subtotal, an empty cart costs only shipping, and no amount is negative when no price or quantity is |
| CheckoutRules.DecrementedQuantity | src/components/ecommerce/checkout-flow.tsx:633 | the minus button never requests less than 1, and requests quantity − 1 whenever that is at least 1 |
| CheckoutRules.IncrementedQuantity | src/components/ecommerce/checkout-flow.tsx:642 | the plus button requests more than the current quantity, at least 1 for a non-negative quantity, and the minus button brings a quantity of at least 1 back |
| CheckoutRules.QuantityButtons | src/components/ecommerce/checkout-flow.tsx:633-642 | minus undoes plus, plus undoes minus above the floor, and minus stops at 1 |
| CheckoutFlow.KeyInjective | src/components/ecommerce/checkout-flow.tsx:40-50 | distinct shipping fields have distinct property names |
| CheckoutFlow.ShippingInfo.With | src/components/ecommerce/checkout-flow.tsx:135 | the spread update sets one field and keeps the other eight |
| CheckoutFlow.RequiredIsAllButCountry | src/components/ecommerce/checkout-flow.tsx:142 | the required fields are every shipping field except the country |
| CheckoutFlow.Checkout.constructor | src/components/ecommerce/checkout-flow.tsx:65-81 | step 1, empty form with country "US", nothing selected or validated, and the invariant holds |
| CheckoutFlow.Checkout.ValidateField | src/components/ecommerce/checkout-flow.tsx:101-132 | the field is listed exactly when the value passes, at most once, other fields keep their membership, and `errors[field]` is "" or that field's message |
| CheckoutFlow.Checkout.HandleInputChange | src/components/ecommerce/checkout-flow.tsx:134-137 | stores the value, then validates it; keeps the invariant that every recorded verdict is the verdict on the field's current value |
| CheckoutFlow.Checkout.SelectDeliveryOption | src/components/ecommerce/checkout-flow.tsx:429 | the delivery radio group sets the selection and keeps the wizard's invariant |
| CheckoutFlow.Checkout.SelectPaymentMethod | src/components/ecommerce/checkout-flow.tsx:458 | the payment radio group sets the selection and keeps the wizard's invariant |
| CheckoutFlow.StepGuard | src/components/ecommerce/checkout-flow.tsx:139-151 | step 1 needs all eight required fields in the validated list, step 2 a delivery option, step 3 a payment method, and step 4 nothing; step 1 is stated by `CheckoutFlow.Checkout.ShippingGate` |
| CheckoutFlow.Checkout.CanProceedToNextStep | src/components/ecommerce/checkout-flow.tsx:139-151 | the guard for the wizard's current step and selections |
| CheckoutFlow.Checkout.ShippingGate | src/components/ecommerce/checkout-flow.tsx:139-143 | on step 1, Continue is enabled exactly when every field but the country has been entered and its current value passes its rule |
| CheckoutFlow.Checkout.HandleNext | src/components/ecommerce/checkout-flow.tsx:153-157 | one step forward only when the guard holds and the step is below 4; the step stays in 1..4 |
| CheckoutFlow.Checkout.HandlePrevious | src/components/ecommerce/checkout-flow.tsx:159-163 | one step back only above step 1; the step stays in 1..4 |
| CheckoutFlow.Checkout.EditStep | src/components/ecommerce/checkout-flow.tsx:521-566 | on the Review step only, the Edit buttons go back to step 1, 2 or 3 and leave the form, the selections and the bookkeeping unchanged |
| CheckoutFlow.Checkout.CompleteOrder | src/components/ecommerce/checkout-flow.tsx:165-174 | the snapshot carries exactly the shipping info, the two selections, the cart and its four totals |
| CheckoutFlow.EmptyFormIsRefused | src/components/ecommerce/checkout-flow.tsx:139-157 | on a fresh wizard Continue leaves the step at 1 |
| Filters.FilterState.WithList | src/components/ecommerce/filter-sidebar.tsx:139-143 | the merge replaces one list and keeps the other lists, the range and the features |
| Filters.ListChange | src/components/ecommerce/filter-sidebar.tsx:159-199 | the six check-box handlers: append when checked, remove every occurrence when unchecked; stated by `Filters.ListChangeSpec` and `Filters.CheckThenUncheck` |
| Filters.ListChangeSpec | src/components/ecommerce/filter-sidebar.tsx:159-199 | checking appends the value at the end of its one list; unchecking removes every occurrence and keeps the other values in order; nothing else changes |
| Filters.CheckThenUncheck | src/components/ecommerce/filter-sidebar.tsx:159-164 | checking a value that was not checked and then unchecking it restores the criteria |
| Filters.ChipsOf | src/components/ecommerce/filter-sidebar.tsx:322-328 | the chips of several lists, list after list; stated by `Filters.ChipsOfFacts` and `Filters.ChipsOfSorted` |
| Filters.PriceChips | src/components/ecommerce/filter-sidebar.tsx:329 | one "$lo - $hi" chip when the range is not (0, 1000), none otherwise |
| Filters.ActiveFilters | src/components/ecommerce/filter-sidebar.tsx:322-330 | `activeFilters`: the list chips, then the price chip; stated by `Filters.ActiveFiltersShape` |
| Filters.ListChips | src/components/ecommerce/filter-sidebar.tsx:322-328 | one chip per list entry, in order, labelled with the value (ratings get " Stars") |
| Filters.ActiveFiltersShape | src/components/ecommerce/filter-sidebar.tsx:322-330 | there are as many chips as `getActiveFiltersCount`; they come in the order categories, brands, ratings, seller type, condition, shipping, price; each list chip names a value of its list, and a price chip appears only for a non-default range |
| Filters.ActiveCount | src/components/ecommerce/filter-sidebar.tsx:220-228 | `getActiveFiltersCount`: the lengths of the six lists plus one for a non-default price range; stated by `Filters.UncheckLowersCount`, `Filters.ActiveFiltersShape` and `Filters.ClearedHasNoActiveFilter` |
| Filters.UncheckLowersCount | src/components/ecommerce/filter-sidebar.tsx:220-228 | unchecking a checked value lowers the active-filter count |
| Filters.AfterRemove | src/components/ecommerce/filter-sidebar.tsx:230-254 | `removeFilter`'s switch: uncheck for a list key, reset the range for the price key, no report for `features`; stated by `Filters.RemoveFilterSpec` and `Filters.RemoveChipLowersCount` |
| Filters.RemoveFilterSpec | src/components/ecommerce/filter-sidebar.tsx:230-254 | removing a list entry unchecks it in that list only; removing the price chip resets the range to (0, 1000) and keeps the lists; `features` does nothing |
| Filters.RemoveChipLowersCount | src/components/ecommerce/filter-sidebar.tsx:230-254 | removing any chip that is shown reports new criteria with a smaller count |
| Filters.ClearedHasNoActiveFilter | src/components/ecommerce/filter-sidebar.tsx:205-218 | after "Clear all" the count is 0 and no chip is shown |
| Filters.MinInputValue | src/components/ecommerce/filter-sidebar.tsx:410 | `parseInt(text) \|\| 0`; stated by `Filters.PriceInputs` |
| Filters.MaxInputValue | src/components/ecommerce/filter-sidebar.tsx:422 | `parseInt(text) \|\| 1000`: the upper bound it gives is never 0, because 0 and `NaN` are both falsy |
| Filters.PriceInputs | src/components/ecommerce/filter-sidebar.tsx:410-422 | unparsable min text gives 0; unparsable max text, or a max of 0, gives 1000; a shown bound reads back as itself |
| Filters.FilteredBrands | src/components/ecommerce/filter-sidebar.tsx:256-258 | `filteredBrands`; stated by `Filters.FilteredBrandsSpec` |
| Filters.PopularBrands | src/components/ecommerce/filter-sidebar.tsx:260 | the popular filtered brands, in order; stated by `Filters.BrandGroupsPartition` |
| Filters.OtherBrands | src/components/ecommerce/filter-sidebar.tsx:261 | the other filtered brands, in order; stated by `Filters.BrandGroupsPartition` |
| Filters.FilteredBrandsSpec | src/components/ecommerce/filter-sidebar.tsx:256-258 | an empty search lists all brands; otherwise exactly the brands whose lower-cased name contains the lower-cased search, in order |
| Filters.BrandGroupsPartition | src/components/ecommerce/filter-sidebar.tsx:260-261 | the popular and the other brands are disjoint, cover the filtered brands, and their sizes add up |
| Filters.Toggle | src/components/ecommerce/filter-sidebar.tsx:145-157 | `{ ...prev, [k]: !prev[k] }` with a missing key read as false; stated by `Filters.ToggleProperties` |
| Filters.ToggleProperties | src/components/ecommerce/filter-sidebar.tsx:145-157 | a toggle flips only its key; toggling twice restores what the key reads as, and the map itself when the key was present |
| Filters.FilterSidebar.constructor | src/components/ecommerce/filter-sidebar.tsx:114-136 | default criteria, the initial section map, no expanded categories, an empty brand search |
| Filters.FilterSidebar.UpdateFilters | src/components/ecommerce/filter-sidebar.tsx:139-143 | stores the merged criteria and reports the same criteria |
| Filters.FilterSidebar.HandleListChange | src/components/ecommerce/filter-sidebar.tsx:159-199 | the six check-box handlers store and report the list change |
| Filters.FilterSidebar.HandlePriceRangeChange | src/components/ecommerce/filter-sidebar.tsx:201-203 | stores and reports the new range, nothing else changes |
| Filters.FilterSidebar.HandleMinInput | src/components/ecommerce/filter-sidebar.tsx:410 | the minimum field sets the lower bound from `parseInt(text) \|\| 0` and keeps the upper bound |
| Filters.FilterSidebar.HandleMaxInput | src/components/ecommerce/filter-sidebar.tsx:422 | the maximum field sets the upper bound from `parseInt(text) \|\| 1000` and keeps the lower bound |
| Filters.FilterSidebar.ClearAllFilters | src/components/ecommerce/filter-sidebar.tsx:205-218 | stores and reports the default criteria, whose count is 0 |
| Filters.FilterSidebar.RemoveFilter | src/components/ecommerce/filter-sidebar.tsx:230-254 | a chip's × button reports and stores the criteria after removal, and leaves them untouched for `features` |
| Filters.FilterSidebar.GetActiveFiltersCount | src/components/ecommerce/filter-sidebar.tsx:220-228 | the active count of the stored criteria |
| Filters.FilterSidebar.ToggleSection | src/components/ecommerce/filter-sidebar.tsx:145-150 | flips one section's expanded flag |
| Filters.FilterSidebar.ToggleCategory | src/components/ecommerce/filter-sidebar.tsx:152-157 | flips one category's expanded flag |
| Filters.FilterSidebar.SetBrandSearch | src/components/ecommerce/filter-sidebar.tsx:448 | the search box sets the brand search text |
| ShopPage.SearchResults | src/app/page.tsx:207-219 | the query filter when the trimmed query is non-empty, then the category filter; stated by `ShopPage.SearchIsOneFilter` and `ShopPage.SearchSpec` |
| ShopPage.SearchIsOneFilter | src/app/page.tsx:201-224 | the two conditional filters of a search are one filter of the catalogue by the combined condition |
| ShopPage.SearchSpec | src/app/page.tsx:207-219 | results keep the catalogue's order; a product is listed exactly when its name or brand contains the untrimmed lower-cased query (if the trimmed query is non-empty) and its brand contains the category (unless none, empty or "All Categories"); a white-space query filters nothing |
| ShopPage.RemoveFirstPlus | src/app/page.tsx:247 | `replace('+', '')` changes nothing without a '+' and drops exactly one character otherwise |
| ShopPage.RemoveFirstPlusAt | src/app/page.tsx:247 | it removes the first '+' and keeps the text around it |
| ShopPage.ApplyFilters | src/app/page.tsx:230-252 | the brand, price and rating filters, each only when set; stated by `ShopPage.ApplyFiltersIsOneFilter`, `ShopPage.ApplyFiltersSpec` and `ShopPage.FiltersIgnoreOtherCriteria` |
| ShopPage.ApplyFiltersIsOneFilter | src/app/page.tsx:226-256 | the brand, price and rating filters in a row are one filter of the catalogue by their conjunction |
| ShopPage.ApplyFiltersSpec | src/app/page.tsx:231-252 | the listing keeps the catalogue's order; a product is listed exactly when its brand is chosen (or none are), its price is in the range (or the range is the default), and some rating option's integer is at most its rating (or none are chosen) |
| ShopPage.FiltersIgnoreOtherCriteria | src/app/page.tsx:226-256 | categories, seller type, condition, shipping and features never affect the listing, and the default criteria list the whole catalogue |
| ShopPage.MinRating | src/app/page.tsx:247 | `parseInt(option.replace('+', ''))`, with `None` for `NaN`; stated by `ShopPage.SidebarRatingOptions` |
| ShopPage.RatingMet | src/app/page.tsx:246-248 | `ratings.some(...)` over the parsed options; stated by `ShopPage.RatingMetSingle` |
| ShopPage.MinRatingOfFour | src/app/page.tsx:247 | the option "4+" stands for 4 |
| ShopPage.MinRatingOfBarePlus | src/app/page.tsx:247 | the option "+" parses to `NaN` |
| ShopPage.SidebarRatingOptions | src/components/ecommerce/filter-sidebar.tsx:88-93 | the four rating check boxes "4+", "3+", "2+" and "1+" stand for 4, 3, 2 and 1 |
| ShopPage.ShippingChoiceKeepsListing | src/components/ecommerce/filter-sidebar.tsx:107-111 | checking or unchecking any shipping box, "Prime eligible" included, leaves the listing as it was, because the page never reads `shipping` |
| ShopPage.RatingMetSingle | src/app/page.tsx:246-248 | with one option, a rating passes exactly when the option parses and the rating is at least its value |
| ShopPage.RatingOptionExamples | src/app/page.tsx:244-251 | "4+" keeps 4.5 and 4.0 and drops 3.9, and "+" keeps nothing |
| ShopPage.UpdateQuantity | src/app/page.tsx:276-282 | every line with the id gets the new quantity, every other line and field is unchanged, length and order are kept |
| ShopPage.UpdateQuantityCount | src/app/page.tsx:276-282 | the badge count changes by the new quantity per line of the id, less what those lines held |
| ShopPage.RemoveItem | src/app/page.tsx:285 | no line with the id is left, every line left was in the cart, and the cart does not grow |
| ShopPage.CartCount | src/app/page.tsx:332 | the badge count, the sum of the quantities; stated by `ShopPage.UpdateQuantityCount`, `ShopPage.RemoveItemSpec` and `ShopPage.InitialCartFacts` |
| ShopPage.CountCoversLines | src/app/page.tsx:332 | while every line holds at least one unit, the badge is at least the number of lines |
| ShopPage.RemoveItemSpec | src/app/page.tsx:284-286 | removal drops exactly the lines with the id, keeps the others in order, and lowers the badge count by their quantity |
| ShopPage.UnknownIdIsNoOp | src/app/page.tsx:276-286 | an id not in the cart leaves it unchanged under both edits |
| ShopPage.ButtonsKeepQuantitiesPositive | src/components/ecommerce/checkout-flow.tsx:633-642 | when every quantity is at least 1, the plus and minus requests keep it so |
| ShopPage.InitialCartFacts | src/app/page.tsx:47-64 | the initial cart holds three units, each line at least one |
| ShopPage.Storefront.constructor | src/app/page.tsx:45-71 | browse view, the two-line initial cart, logged out, no query, nothing listed before mount |
| ShopPage.Storefront.Mount | src/app/page.tsx:151-153 | the mount effect lists the whole catalogue |
| ShopPage.Storefront.HandleSearch | src/app/page.tsx:201-224 | records the query and lists the search results of the whole catalogue |
| ShopPage.Storefront.HandleFiltersChange | src/app/page.tsx:226-256 | lists the filtered catalogue, discarding any earlier search |
| ShopPage.Storefront.HandleCartClick | src/app/page.tsx:258-260 | switches to the checkout view |
| ShopPage.Storefront.OpenSellerDashboard | src/app/page.tsx:389-395 | switches to the seller view |
| ShopPage.Storefront.HandleAccountClick | src/app/page.tsx:266-274 | "login" signs in; every other action leaves the flag as it was |
| ShopPage.Storefront.HandleUpdateQuantity | src/app/page.tsx:276-282 | replaces the cart by its quantity update |
| ShopPage.Storefront.HandleRemoveItem | src/app/page.tsx:284-286 | replaces the cart by its removal |
| ShopPage.Storefront.HandleCompleteOrder | src/app/page.tsx:288-292 | the cart empties (badge 0) and the view returns to browsing |
| ShopPage.Storefront.CartItemCount | src/app/page.tsx:332 | the badge the page passes to the navbar; at least the number of lines while every line holds at least one unit |
| HeroCarousel.NextIndex | src/components/ecommerce/hero-carousel.tsx:66-69 | the next arrow's index is always a slide |
| HeroCarousel.PrevIndex | src/components/ecommerce/hero-carousel.tsx:71-74 | the previous arrow's index is always a slide |
| HeroCarousel.ArrowsInverse | src/components/ecommerce/hero-carousel.tsx:66-74 | both arrows stay within the three slides and undo each other |
| HeroCarousel.NextTimesWraps | src/components/ecommerce/hero-carousel.tsx:66-69 | k presses of next move to (i + k) mod 3 |
| HeroCarousel.NextTimesRoundTrip | src/components/ecommerce/hero-carousel.tsx:22-69 | three presses of next return to the starting slide |
| HeroCarousel.TickTimer | src/components/ecommerce/hero-carousel.tsx:85-91 | one 100 ms tick: a full bar moves to the next slide and empties, otherwise it grows by 2; stated by `HeroCarousel.TickKeepsBounds` and `HeroCarousel.TicksFromEmpty` |
| HeroCarousel.TickKeepsBounds | src/components/ecommerce/hero-carousel.tsx:85-91 | a tick keeps the slide in range and the progress in {0, 2, …, 100} |
| HeroCarousel.TicksFromEmpty | src/components/ecommerce/hero-carousel.tsx:85-91 | from an empty bar, k ≤ 50 ticks keep the slide and set the progress to 2k |
| HeroCarousel.SlideAdvancesAfter51Ticks | src/components/ecommerce/hero-carousel.tsx:81-95 | the slide stays for 50 ticks and the 51st advances it with an empty bar |
| HeroCarousel.Carousel.constructor | src/components/ecommerce/hero-carousel.tsx:62-64 | slide 0, playing, progress 0 |
| HeroCarousel.Carousel.NextSlide | src/components/ecommerce/hero-carousel.tsx:66-69 | index (i + 1) mod 3, progress 0 |
| HeroCarousel.Carousel.PrevSlide | src/components/ecommerce/hero-carousel.tsx:71-74 | index (i − 1 + 3) mod 3, progress 0 |
| HeroCarousel.Carousel.GoToSlide | src/components/ecommerce/hero-carousel.tsx:76-79 | index k, progress 0; the carousel stays valid for the indices the dots pass |
| HeroCarousel.Carousel.Tick | src/components/ecommerce/hero-carousel.tsx:81-95 | while playing, one timer step; while paused, nothing changes |
| HeroCarousel.Carousel.MouseEnter | src/components/ecommerce/hero-carousel.tsx:97-99 | pauses, keeping the carousel valid |
| HeroCarousel.Carousel.MouseLeave | src/components/ecommerce/hero-carousel.tsx:101-103 | resumes, keeping the carousel valid |

## Left out

- Rendering is not modelled, because it is presentation only. This covers JSX, Tailwind classes, motion animations, the step indicator, the progress-bar width and the mobile sheet (`mobileOpen`).
- The `setTimeout` delays around search and filtering and the `isLoading` flag are left out. So is the carousel's `setInterval` itself. Each callback body is taken as one immediate step, and the ordering of overlapping timers is not modelled.
- Money is exact `real`, with no JavaScript floating point and no `toFixed` formatting.
- `parseInt` is over unbounded integers. Precision loss above 2^53 is not modelled, and neither is how a browser sanitises `type="number"` inputs.
- Case mapping is ASCII only.
- The promo code, the card-detail inputs, the wishlist button, and the product, order, seller and settings callbacks are left out. They only store text or log to the console.
- The particle and parallax effects of the page are left out, because they use the DOM and randomness.
- The seller dashboard, the navbar, the product grid, the layout and the game-UI components are not part of this model.
- The `features` map of the criteria is only ever default or reset. No handler edits it, and the page never reads it.
- The checkout component unmounts when the page leaves the checkout view, which drops the wizard's state. The model keeps the wizard and the page as separate objects, so that loss is not captured.
- CheckoutFlow.Checkout.CompleteOrder: it can be called at any step. The component only renders its button on step 4 (Review), and the model does not add that requirement.
- HeroCarousel.Carousel.GoToSlide: the index is not checked, as in the source. Only in-range indices, which are the ones the dots pass, are proved to keep the carousel valid.
- HeroCarousel.NextIndex: the arithmetic is over the fixed three slides (`slides.length` is a constant), not over an arbitrary slide count.
