# pretix core, modelled in Dafny

This project models a set of small, self-contained parts of pretix, the
ticket shop. Each part is stated in Dafny and proved against its own
contracts:

- **Reporting timeframes** (`timeframes.dfy`, `timeframe_properties.dfy`).
  This covers the table of 22 named date windows: today, the last 7 days,
  the current, previous and next week, month, quarter and year, and the
  rest. It also covers resolving a serialised timeframe against a reference
  date, as inclusive dates or as half-open datetimes. The form field's
  `compress`, `decompress` and `clean` are modelled, and so is the building
  of its grouped choices.
- **Date ranges** (`daterange.dfy`): the short phrase for a span of dates in
  German, English, Spanish and the generic fallback.
- **Person names** (`names.dfy`): building a display name from its parts,
  a name scheme and a concatenation.
- **Badge export** (`badges.dfy`). This covers the rendering options, the
  slot arithmetic of a sheet and the pagination of `render_pdf`. It also
  covers choosing a renderer per position, and the filters and rendering
  option of the exporter's `render`.
- **Order API serializers** (`order_serializers.dfy`). This covers creating
  an order (its total, the free-order rule, positions and fees) and the
  download links of orders and positions. It also covers the invoice-address
  country and field flags.
- **Storefront checkout** (`checkout.dfy`). This covers opening a checkout
  session, the presale checks, and submitting the cart task with one retry.
  It also covers turning a task's state into an `ok`, `error` or `pending`
  answer.
- **Sales channels** (`channels.dfy`). The registry merges every plugin's
  registrations by identifier, in first-registration order, with the last
  value winning. The registry is cached once it is non-empty.
- **Time machine** (`timemachine.dfy`). A per-context override of "now"
  falls back to the wall clock or to a given default. Two blocks set the
  override and clear it on exit.

Supporting modules:

- `calendar.dfy`: the proleptic Gregorian calendar, with Python's ordinal
  and weekday numbering.
- `isodates.dfy`: the `YYYY-MM-DD` text form.
- `text.dfy`: `startswith`, `split(c, 1)` and `strip`.
- `wrappers.dfy`: `Option` and `Result`.

Conventions:

- Money is in integer cents.
- Badge sheet measures are integer millimetres.
- Instants are integer seconds.
- Framework services become parameters: the database, the signal dispatch,
  the celery queue, Django's date formatting and the name-scheme table.

## Model

| member | source | states |
|---|---|---|
| Timeframes.QuarterStart | src/pretix/base/timeframes.py:34-35 | the first day of the quarter holding the date: same year, day 1, a quarter month, not after the date |
| Timeframes.WeekStart | src/pretix/base/timeframes.py:38-39 | the Monday on or before the date, at most six days earlier, exactly `weekday` days earlier |
| Timeframes.FrameStart | src/pretix/base/timeframes.py:42-243 | every row's start is a real date, and a quarter row starts in January, April, July or October |
| Timeframes.Lookup | src/pretix/base/timeframes.py:360-364 | no frame exactly when no row carries the identifier; a found frame is the frame of a row with that identifier |
| Timeframes.Compress | src/pretix/base/timeframes.py:326-334 | no value exactly for the empty list or `unset`; a choice other than `custom` is kept as it is |
| Timeframes.Clean | src/pretix/base/timeframes.py:290-346 | incomplete exactly when `custom` lacks a date or the choice is empty beside a date; required exactly when every part is empty on a required field; an invalid choice exactly when the choice is not `custom`, not `unset` on an optional field and not an offered identifier; otherwise no value for an empty choice or `unset` and the choice itself for an identifier |
| Timeframes.GroupOffered | src/pretix/base/timeframes.py:295-300 | one group per run of equal group labels; the groups hold exactly the offered identifiers in table order; every offered row sits in the group of its own run, and every identifier in a group comes from an offered row of that run |
| Timeframes.BuildChoices | src/pretix/base/timeframes.py:290-304 | the top choices are `custom`, preceded by `unset` when the field is optional; the grouped choices are those of the table, each offered row in the group of its run, as for `GroupOffered` |
| TimeframeProperties.WindowOrdered | src/pretix/base/timeframes.py:42-243 | every row resolves to a window whose start is not after its end |
| TimeframeProperties.PastDaysWindows | src/pretix/base/timeframes.py:44-70 | today is the reference date; the last 7 and 14 days end on it and start 6 and 13 days earlier |
| TimeframeProperties.NextDaysStart | src/pretix/base/timeframes.py:71-97 | tomorrow is the single day after the reference; the next 7 and 14 days start on that day |
| TimeframeProperties.NextDaysEnd | src/pretix/base/timeframes.py:80-97 | the next 7 and 14 days end 7 and 14 days after the reference date |
| TimeframeProperties.WeekThisWindow | src/pretix/base/timeframes.py:98-115 | the current week runs Monday to Sunday and contains the reference date; the week to date ends on it |
| TimeframeProperties.WeekPreviousWindow | src/pretix/base/timeframes.py:116-124 | the previous week is seven days, starts on a Monday and ends the day before the current week starts |
| TimeframeProperties.WeekStartShift | src/pretix/base/timeframes.py:125-133 | the week start of a date moved by whole weeks is the week start moved by the same weeks |
| TimeframeProperties.WeekNextWindow | src/pretix/base/timeframes.py:125-133 | the next week starts the day after the current week ends |
| TimeframeProperties.MonthWindows | src/pretix/base/timeframes.py:134-169 | this, the previous and the next month are whole calendar months, back to back |
| TimeframeProperties.QuarterWindows | src/pretix/base/timeframes.py:170-207 | this, the previous and the next quarter are whole quarters, back to back |
| TimeframeProperties.YearWindows | src/pretix/base/timeframes.py:208-243 | this, the previous and the next year are 1 January to 31 December, back to back; year to date ends on the reference date |
| TimeframeProperties.PastFramesEndByRef | src/pretix/base/timeframes.py:42-243 | every frame not marked as including the future ends on or before the reference date |
| TimeframeProperties.FutureFramesReachRef | src/pretix/base/timeframes.py:42-243 | every frame marked as including the future ends on or after the reference date |
| TimeframeProperties.IncludesFutureFlag | src/pretix/base/timeframes.py:42-243 | each row's `includes_future` flag agrees with where its window ends |
| TimeframeProperties.IdentifierHasNoSlash | src/pretix/base/timeframes.py:357-359 | no identifier contains `/`, so none is mistaken for a custom range |
| TimeframeProperties.IdentifiersDistinct | src/pretix/base/timeframes.py:42-243 | the 22 identifiers are pairwise distinct |
| TimeframeProperties.ResolveIdentifier | src/pretix/base/timeframes.py:360-364 | every identifier of the table resolves to its own row's window |
| TimeframeProperties.ResolveUnknown | src/pretix/base/timeframes.py:365 | text that is neither a range nor an identifier is rejected as an invalid timeframe |
| TimeframeProperties.ResolveCustom | src/pretix/base/timeframes.py:357-359 | a range `a/b` resolves to exactly `a` and `b`, whatever the reference date |
| TimeframeProperties.DatetimesAgreeWithDates | src/pretix/base/timeframes.py:368-391 | the datetime resolver fails exactly when the date resolver does; otherwise it gives midnight of the first day and of the day after the last |
| TimeframeProperties.CompressDecompressCustom | src/pretix/base/timeframes.py:259-267 | decompressing a compressed custom range gives back the same two dates |
| TimeframeProperties.DecompressUnset | src/pretix/base/timeframes.py:259-261 | no value decompresses to `unset`, which compresses back to no value |
| TimeframeProperties.DecompressIdentifier | src/pretix/base/timeframes.py:259-268 | a plain identifier decompresses to the empty list |
| TimeframeProperties.CleanCustomResolves | src/pretix/base/timeframes.py:341-346 | a complete custom choice is accepted by every field and cleaned into a value that resolves to exactly its dates |
| TimeframeProperties.CleanIdentifierResolves | src/pretix/base/timeframes.py:341-346 | a choice naming an offered row is cleaned into its identifier, which resolves to that row's window |
| TimeframeProperties.FutureRowNotOffered | src/pretix/base/timeframes.py:295-300 | without future frames, the identifier of a row reaching into the future is not offered |
| TimeframeProperties.CleanRefusesFutureRow | src/pretix/base/timeframes.py:299-310 | a field built without future frames refuses a future row's identifier as an invalid choice |
| TimeframeProperties.CleanRefusesUnknownChoice | src/pretix/base/timeframes.py:306-310 | a choice that is no top choice and no identifier of the table is refused as an invalid choice |
| TimeframeProperties.OfferedIdentifiersSpec | src/pretix/base/timeframes.py:295-300 | an identifier is offered exactly when a row carries it and is not a future frame, unless future frames are asked for |
| TimeframeProperties.OfferedFramesResolve | src/pretix/base/timeframes.py:295-300 | every offered identifier resolves; without future frames, it ends by the reference date |
| IsoDates.ParseFormat | src/pretix/base/timeframes.py:332 | parsing the ISO text of a date gives the date back |
| DateRange.FamilyOf | src/pretix/helpers/daterange.py:29-43 | German, English and Spanish are chosen by prefix, in that order of precedence |
| DateRange.ClosenessOf | src/pretix/helpers/daterange.py:30-35 | same day, same month, same year or apart, each exactly when its condition is the first that holds |
| DateRange.SameDayIsOneDate | src/pretix/helpers/daterange.py:26-55 | a one-day span is one date in the language's single-day format |
| DateRange.GermanShapes | src/pretix/helpers/daterange.py:29-35 | German ranges within one month and within one year |
| DateRange.EnglishShapes | src/pretix/helpers/daterange.py:36-42 | English ranges within one month and within one year |
| DateRange.SpanishShapes | src/pretix/helpers/daterange.py:43-49 | Spanish ranges within one month and within one year |
| DateRange.ApartIsGeneric | src/pretix/helpers/daterange.py:51-55 | across a year boundary every language uses the generic phrase |
| DateRange.UnknownLanguageIsGeneric | src/pretix/helpers/daterange.py:51-55 | other languages always use the generic phrase |
| DateRange.VariantLikeBase | src/pretix/helpers/daterange.py:29-43 | a variant such as `de-formal` phrases exactly like its base language |
| Names.ChosenKey | src/pretix/helpers/names.py:13-14 | the requested concatenation when the scheme has it, otherwise `concatenation` |
| Names.BuildName | src/pretix/helpers/names.py:4-15 | empty parts give the empty name; it fails exactly without a legacy name and with a missing scheme, an unknown scheme, a missing concatenation or a chosen key that holds data rather than a function |
| Names.LegacyWins | src/pretix/helpers/names.py:7-8 | a legacy name is returned verbatim |
| Names.NoSchemeIsInvalid | src/pretix/helpers/names.py:9-12 | parts without a legacy name or a scheme are invalid |
| Names.UnknownSchemeFails | src/pretix/helpers/names.py:10 | an unknown scheme is a lookup error naming it |
| Names.ConcatenationChoice | src/pretix/helpers/names.py:13-15 | the name is the chosen concatenation's output, stripped; the default is used when the requested key is missing or unknown; a chosen key holding data is a type error |
| Names.NameIsStripped | src/pretix/helpers/names.py:15 | a built name has no white space at either end and is the concatenation's output with only end white space removed |
| Badges.PerPage | src/pretix/plugins/badges/exporters.py:74 | a page holds at least a row and a column of badges |
| Badges.SlotsDistinct | src/pretix/plugins/badges/exporters.py:80-81 | distinct slots of a page are at distinct offsets |
| Badges.SlotInGrid | src/pretix/plugins/badges/exporters.py:80-81 | every slot's column and row lie inside the grid |
| Badges.DurableSlotsFitA4 | src/pretix/plugins/badges/exporters.py:48-55 | each of the ten 90 by 54 slots of the Durable sheet lies inside the A4 page |
| Badges.MakeRenderer | src/pretix/plugins/badges/exporters.py:29-36 | no renderer exactly without a layout; an uploaded background exactly when the layout names one |
| Badges.RendererFor | src/pretix/plugins/badges/exporters.py:111 | an item's own setting wins, even when it is "no badge"; otherwise the default renderer |
| Badges.PrintableSpec | src/pretix/plugins/badges/exporters.py:110-115 | a position is printed exactly when its item resolves to a renderer, and with that renderer |
| Badges.PrintableAppend | src/pretix/plugins/badges/exporters.py:110-115 | the badges of a concatenation are the first part's badges followed by the second part's: input order and multiplicity are kept |
| Badges.PrintableOne | src/pretix/plugins/badges/exporters.py:110-115 | one position gives exactly one badge with its renderer, or none when its item resolves to no renderer |
| Badges.Placements | src/pretix/plugins/badges/exporters.py:79-85 | badge `i` of a page is drawn at slot `i` |
| Badges.RenderPage | src/pretix/plugins/badges/exporters.py:76-106 | the loops draw and merge each badge at its slot and return the canvas to the origin; the page is `PageOf` the buffer |
| Badges.FullPagesSplit | src/pretix/plugins/badges/exporters.py:108-118 | the full pages and the leftover together are the printable positions, and the leftover is shorter than a page |
| Badges.AllPagesComplete | src/pretix/plugins/badges/exporters.py:108-118 | with a final flush every printable position is on exactly one page, in order, and only the last page may be short |
| Badges.CollectPages | src/pretix/plugins/badges/exporters.py:108-118 | the loop renders exactly the full pages, leaves the rest in the buffer, and sets `any` exactly when something is printable |
| Badges.RenderPdf | src/pretix/plugins/badges/exporters.py:59-128 | as written: fails exactly when nothing is printable, and otherwise renders only the full pages |
| Badges.RenderPdfFlushed | src/pretix/plugins/badges/exporters.py:59-128 | corrected: fails exactly when nothing is printable, and otherwise renders every printable position |
| Badges.OneBadgeLosesNothing | src/pretix/plugins/badges/exporters.py:39-47 | with one badge per page nothing is left over, so the missing flush loses nothing |
| Badges.DurableDropsShortPage | src/pretix/plugins/badges/exporters.py:108-124 | three badges on the Durable sheet give no page as written, and one page when flushed |
| Badges.Select | src/pretix/plugins/badges/exporters.py:185-197 | a position is kept exactly when its item is chosen, it is not an add-on unless add-ons are included, and its order is paid, or pending when pending orders are included |
| Badges.SelectAppend | src/pretix/plugins/badges/exporters.py:185-197 | the selection of a concatenation is the first part's selection followed by the second part's: input order and multiplicity are kept |
| Badges.SelectOne | src/pretix/plugins/badges/exporters.py:185-197 | one position is kept, once, exactly when the filters select it |
| Badges.OrderingOf | src/pretix/plugins/badges/exporters.py:199-212 | `name`, `code` and `name:<part>` select their sorts, in that order; the part is the text after `name:` |
| Badges.RenderingOf | src/pretix/plugins/badges/exporters.py:214 | a missing option means `one`; a known key gives its layout; an unknown key is an error |
| Badges.Export | src/pretix/plugins/badges/exporters.py:184-215 | as written: fails on an unknown rendering option or when no selected position is printable; otherwise renders only the full pages of the selected printable positions |
| Badges.ExportFlushed | src/pretix/plugins/badges/exporters.py:184-215 | corrected: the same failures; otherwise renders every selected printable position, the last short page included |
| OrderSerializers.Records | src/pretix/api/serializers/order.py:195-197 | one record per input position, in order, without its answers |
| OrderSerializers.PriceSumAppend | src/pretix/api/serializers/order.py:188 | the price sum of two lists of positions is the sum of their price sums |
| OrderSerializers.AllFreeTotalZero | src/pretix/api/serializers/order.py:188 | free positions and free fees add up to a zero total |
| OrderSerializers.Settle | src/pretix/api/serializers/order.py:189-191 | the order is paid exactly when paid was requested or the total is zero; a zero total not requested as paid gets the provider `free` |
| OrderSerializers.FirstLacking | src/pretix/api/serializers/order.py:187-196 | the index of the first position without the `subevent` or the `answers` key, and none exactly when all have it |
| OrderSerializers.CreateOrder | src/pretix/api/serializers/order.py:181-200 | as written: fails on a missing invoice address, else on the first position without a subevent, else on the first position without answers, and exactly then; otherwise the total, status, provider, positions (with their subevents), fees and address as promised |
| OrderSerializers.MissingAddressFails | src/pretix/api/serializers/order.py:185 | a request without an invoice address is turned down |
| OrderSerializers.MissingSubeventFails | src/pretix/api/serializers/order.py:187 | a position posted without a subevent is turned down, whether or not it has answers |
| OrderSerializers.MissingAnswersFails | src/pretix/api/serializers/order.py:196 | a position posted with a subevent but without answers is turned down |
| OrderSerializers.CreateOrderFixed | src/pretix/api/serializers/order.py:181-200 | corrected: always creates the order, with the total, status, provider, positions (a left-out subevent stored as none), fees and address as promised |
| OrderSerializers.Order.AddPosition | src/pretix/api/serializers/order.py:197 | the position is appended and nothing else changes |
| OrderSerializers.Order.AddFee | src/pretix/api/serializers/order.py:199 | the fee is appended and nothing else changes |
| OrderSerializers.EnabledOutputs | src/pretix/api/serializers/order.py:75-78 | an identifier is listed exactly when some enabled provider has it |
| OrderSerializers.EnabledOutputsAppend | src/pretix/api/serializers/order.py:75-78 | the outputs of a concatenation are the first part's outputs followed by the second part's: signal order and multiplicity are kept |
| OrderSerializers.EnabledOutputsOne | src/pretix/api/serializers/order.py:75-78 | one provider contributes its identifier, once, exactly when it is enabled |
| OrderSerializers.EnabledOutputsCount | src/pretix/api/serializers/order.py:75-78 | there are as many outputs as enabled providers |
| OrderSerializers.EnabledDownloads | src/pretix/api/serializers/order.py:76-88 | as many links as enabled providers, the k-th for the k-th enabled output (in signal order, by the lemmas above), each pointing to its output |
| OrderSerializers.OrderDownloads | src/pretix/api/serializers/order.py:68-88 | no links unless the order is paid; otherwise one per enabled provider, pointing to the order's download |
| OrderSerializers.PositionDownloads | src/pretix/api/serializers/order.py:91-115 | no links unless the order is paid, an add-on has add-on downloads on, and a non-admission item has non-admission downloads on; otherwise one per enabled provider |
| OrderSerializers.CountryRepresentation | src/pretix/api/serializers/order.py:21-25 | the country code when set, otherwise the legacy country text |
| OrderSerializers.RelaxFields | src/pretix/api/serializers/order.py:36-40 | every field keeps its name and becomes optional and blank-accepting |
| Checkout.PresaleCheck | src/pretix/storefrontapi/endpoints/checkout.py:120-126 | `not_started` exactly before presale starts; otherwise `ended` exactly when presale has ended |
| Checkout.SessionStore.Create | src/pretix/storefrontapi/endpoints/checkout.py:119-135 | refused as the presale checks say; otherwise exactly one new session, in the event's test mode, answered with 201 |
| Checkout.SessionStore.Lookup | src/pretix/storefrontapi/endpoints/checkout.py:176-178 | a found session has the cart id; none exactly when no session has it |
| Checkout.ErrorMessage | src/pretix/storefrontapi/endpoints/checkout.py:210-220 | an `OrderError` or `CartError` message passes through, as a dictionary or as the exception; anything else gets the generic message; a dictionary without its keys fails |
| Checkout.ShownMessagesAreExpected | src/pretix/storefrontapi/endpoints/checkout.py:210-220 | any message other than the generic one comes from an `OrderError` or `CartError` |
| Checkout.UnexpectedErrorsAreGeneric | src/pretix/storefrontapi/endpoints/checkout.py:216-220 | an unexpected exception is answered with the generic message |
| Checkout.Answer | src/pretix/storefrontapi/endpoints/checkout.py:180-185 | `ok` exactly for a finished, successful, non-exception result; `pending` exactly for an unfinished task, with its check URL; otherwise `error` with `_async_error`'s message, or that message lookup's failure passed on |
| Checkout.StatusAndCode | src/pretix/storefrontapi/endpoints/checkout.py:201-246 | `ok`, `error` and `pending` go with 200, 409 and 202 |
| Checkout.TaskStatus | src/pretix/storefrontapi/endpoints/checkout.py:175-185 | 404 for an unknown cart, otherwise the celery task's answer |
| Checkout.DoAsync | src/pretix/storefrontapi/endpoints/checkout.py:187-199 | one retry exactly after a connection error; a second failure propagates; the answer comes from the submission that reached the broker |
| Checkout.ValidateLine | src/pretix/storefrontapi/endpoints/checkout.py:24-33 | a missing count means one; the other fields pass through |
| Checkout.AddToCart | src/pretix/storefrontapi/endpoints/checkout.py:143-167 | 404 for an unknown cart; otherwise the celery task gets the validated lines, the session's cart, channel and address, and the override time only when one is set, and the response is the answer of the submission that reached the broker, or the broker error after two failed attempts |
| Channels.PlainChannel | src/pretix/base/channels.py:52-83 | the base defaults: icon `circle`, test mode and payment restrictions supported, items per order limited |
| Channels.BaseSalesChannels | src/pretix/base/channels.py:103-113 | the base receiver registers exactly one channel, `web`, with icon `globe` |
| Channels.Registry.Put | src/pretix/base/channels.py:96-98 | a new identifier is appended; a known one keeps its place and takes the new value |
| Channels.PutValid | src/pretix/base/channels.py:96-98 | putting keeps the keys distinct and in step with the entries |
| Channels.BuildEntries | src/pretix/base/channels.py:92-98 | exactly the registered identifiers are keys, each holding its last registration |
| Channels.BuildOrder | src/pretix/base/channels.py:92-98 | the keys are in the order of each identifier's first registration |
| Channels.Collect | src/pretix/base/channels.py:92-99 | the loop builds the registry of all registrations, a list or tuple contributing each element |
| Channels.ChannelCache.GetAll | src/pretix/base/channels.py:86-100 | a non-empty cache is returned unchanged; otherwise the registry is collected and cached |
| Channels.CachedAfterFirstCall | src/pretix/base/channels.py:89-90 | once non-empty, a second call returns the first result whatever the signal answers |
| Channels.NonEmptyBuild | src/pretix/base/channels.py:89 | one registration is enough for a non-empty, and so cached, registry |
| Channels.BaseRegistry | src/pretix/base/channels.py:103-113 | with only the base receiver the registry is exactly `web` mapped to the online shop |
| TimeMachine.FallbackValue | src/pretix/base/timemachine.py:52-54 | the default `False` gives the wall clock; any other default is returned as is |
| TimeMachine.Clock.Now | src/pretix/base/timemachine.py:51-54 | the override wins whatever the default; without one, the fallback; nothing exactly without override and with `None` as default |
| TimeMachine.NoOverrideFallbacks | src/pretix/base/timemachine.py:51-54 | without an override, no default gives the wall clock and `None` gives nothing |
| TimeMachine.OverrideIgnoresDefault | src/pretix/base/timemachine.py:51-54 | with an override, every default and wall clock gives the override |
| TimeMachine.Clock.Assigned | src/pretix/base/timemachine.py:57-63 | inside the block the clock reads the assigned time; afterwards the override is cleared |
| TimeMachine.Clock.NestedAssigned | src/pretix/base/timemachine.py:57-63 | leaving an inner block clears the override to nothing, not back to the outer block's time |
| TimeMachine.Clock.AssignedFromRequest | src/pretix/base/timemachine.py:31-48 | the time is fake exactly when all five conditions hold; the request records its time; the override is set only when fake and cleared on exit |

## Left out

- Django, the ORM and the database. Querysets, `transaction.atomic` and saving are left out: an order's state is an object, and a failed create returns an error instead of rolling back.
- The database sort of the badge export. `Badges.OrderingOf` names the sort, but the positions arrive already in that order.
- PDF drawing and merging in the badge export (reportlab, PyPDF2, the renderer's `draw_page`), and opening background files. A page is modelled as its size and the placements drawn and merged on it.
- Translations (`gettext`), localised date formats and Django's `date` filter. The filter is a function parameter, and the generic range template is not translated.
- Time zones. The resolvers take a reference date. The conversion of a reference datetime to a date in the event's time zone and `make_aware` are left out.
- Display labels and descriptions of the timeframe rows, the widget's template context, `has_changed` and `_describe_timeframe`.
- The celery queue and the signal dispatch. A submission's outcome and the receivers' responses are inputs. Logging is left out.
- `print` in the request time-machine block, and the parsing of the session's time text. The parser is a parameter.
- `retrieve`, the session serializers and their output fields in the checkout endpoint. Input validation other than the count default is also left out.
- Python's integer and date range limits outside the ISO formatting: the calendar is proleptic Gregorian over all years.
- The extended ISO forms `date.fromisoformat` accepts from Python 3.11 on. Only `YYYY-MM-DD` is parsed.
- Timeframes.Clean: the date sub-fields receive dates already parsed, so text that is not a date is not modelled; Django collects every sub-field error into one `ValidationError`, and the model reports the first.
- Names.NameIsStripped: strips the ten ASCII characters `str.isspace()` accepts (blank, tab, line feed, vertical tab, form feed, carriage return and the separators 0x1C to 0x1F). Python's `strip()` also removes the non-ASCII Unicode white space, such as 0x85, 0xA0 and 0x3000, which is not modelled.
- Badges.RenderPage: the page size comes from the option's paper size or the first badge's background, but the background PDF's media box is not modelled.
- OrderSerializers.CreateOrder: the expiry date that `set_expires` computes from the subevents, the event link and the order code are not modelled; the subevents are read, so a missing one fails as in the source.
- Checkout.SessionStore.Create: the cart id generator is a parameter, and the answer carries the new session rather than its serialised form.

## Findings

| source | as written | input that shows it | evidently intended | confidence | as-written member | corrected member |
|---|---|---|---|---|---|---|
| src/pretix/plugins/badges/exporters.py:108-124 | the page buffer is rendered only when it holds a full page, and is not flushed after the loop, so the export (`Badges.Export`) loses the last short page | the `durable_54x90` option (10 badges per page) with three printable positions: no page is rendered, and no error is raised | render the short last page after the loop, as `Badges.ExportFlushed` does | high, not executed | Badges.DurableDropsShortPage | Badges.RenderPdfFlushed |
| src/pretix/api/serializers/order.py:185 | the invoice address is popped from the validated data without a default, although the field is optional | a create request without `invoice_address`: the lookup fails and nothing is created | create the order without an invoice address | medium, not executed | OrderSerializers.MissingAddressFails | OrderSerializers.CreateOrderFixed |
| src/pretix/api/serializers/order.py:187 | every position's `subevent` is looked up without a default for the expiry date, although `subevent` is a nullable, optional field (src/pretix/base/migrations/0067_auto_20170712_1610.py:35-39) | a create request with an invoice address and one position that has no `subevent`: the lookup fails and nothing is created | read the subevent as absent (`null`) when left out | medium, not executed | OrderSerializers.MissingSubeventFails | OrderSerializers.CreateOrderFixed |
| src/pretix/api/serializers/order.py:196 | each position's `answers` key is deleted unconditionally, although answers are optional | a create request with a position that has a `subevent` but no `answers`: the deletion fails and nothing is created | drop the answers only when present | medium, not executed | OrderSerializers.MissingAnswersFails | OrderSerializers.CreateOrderFixed |
