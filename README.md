# Rossmann store sales: a Dafny model of the prediction pipeline

Rossmann store sales has three parts.

- A Flask prediction API, `handler.py`, feeds the records of a request through the `Rossmann` class in `Rossmann.py`. The class cleans them, engineers features, filters them, prepares them and predicts; the API answers with the prepared rows plus a `predicted_sales` column.
- A Telegram bot, `rossmann-bot.py`, reads a store number from a chat message. It selects that store's test rows and asks the API for their forecast. It then replies with the store's six-week total.
- A Streamlit dashboard, `rossmann-st.py`, sends all test rows to the API. It lines the predictions up with the dates of the open rows and draws one store's expected, best and worst scenarios.

This project models those parts in Dafny. A pandas DataFrame is a value `Table`: column labels plus positional rows of cells (`Tables`). Where the source changes a frame in place it is a `Frame` object (`Frames`). Each pipeline stage is specified by a function on tables, and the `Rossmann.Pipeline` class has one method per stage. Each method is proved to leave the frame it changes exactly as its stage function says.

The following are parameters rather than code:
- the fitted imputers;
- the scalers and the store scaler's inverse;
- sine, cosine and `expm1`;
- the LightGBM model;
- the prediction service the bot calls;
- the per-store MAE dictionary;
- the best and worst scenario arithmetic.

Modules, one per file:

| module | file | what it holds |
|---|---|---|
| `Values` | values.dfy | cells, exceptions, `Result`, column-wise maps |
| `Digits` | digits.dfy | digit strings and their values |
| `Calendar` | calendar.dfy | Gregorian dates, the ordinal date, `YYYY-MM-DD` text |
| `SnakeCase` | snakecase.dfy | the Pascal to snake case renaming |
| `Tables` | tables.dfy | DataFrame operations as functions |
| `Frames` | frames.dfy | the in-place DataFrame |
| `Features` | features.dfy | the per-cell rules of the pipeline |
| `Rossmann` | rossmann.dfy | the five stages, their properties and the `Pipeline` class |
| `Handler` | handler.dfy | the `/rossmann/predict` endpoint |
| `Bot` | bot.dfy | the Telegram bot |
| `Dashboard` | dashboard.dfy | the Streamlit page |

## Model

| member | source | states |
|---|---|---|
| SnakeCase.SegmentsComplete | rossmann_store_sales/web-app-rossmann-sales/rossmann/Rossmann.py:52 | wherever an upper-case letter is followed by a lower-case letter or digit, the longest match starting there is among the segments |
| SnakeCase.SegmentsSound | rossmann_store_sales/web-app-rossmann-sales/rossmann/Rossmann.py:52 | every segment is the longest match starting at such a place, so nothing else is picked up |
| SnakeCase.SegmentsInOrder | rossmann_store_sales/web-app-rossmann-sales/rossmann/Rossmann.py:52 | the matches occur in the label from left to right without overlapping |
| SnakeCase.SegmentsOfConcat | rossmann_store_sales/web-app-rossmann-sales/rossmann/Rossmann.py:52 | a Pascal-case label glued from words gives back exactly those words |
| SnakeCase.SnakeCaseIsSnake | rossmann_store_sales/web-app-rossmann-sales/rossmann/Rossmann.py:52-53 | every renamed label is lower-case words and digits joined by single underscores, or empty |
| SnakeCase.NoUpperGivesEmpty | rossmann_store_sales/web-app-rossmann-sales/rossmann/Rossmann.py:52 | a label without an upper-case letter (one already in snake case) is renamed to the empty label |
| SnakeCase.CompetitionDistanceRenamed | rossmann_store_sales/web-app-rossmann-sales/rossmann/Rossmann.py:52-60 | `CompetitionDistance` becomes the `competition_distance` the stage then imputes |
| SnakeCase.Promo2SinceWeekRenamed | rossmann_store_sales/web-app-rossmann-sales/rossmann/Rossmann.py:52-53 | the digit in `Promo2SinceWeek` stays inside its word: `promo2_since_week` |
| SnakeCase.OpenRenamed | rossmann_store_sales/web-app-rossmann-sales/rossmann/Rossmann.py:52-53 | `Open` becomes the `open` that filtering reads |
| SnakeCase.MergedLabelsRename | rossmann_store_sales/web-app-rossmann-sales/rossmann/Rossmann.py:52-54 | the 17 labels of test.csv merged with store.csv rename to `id`, `store`, `day_of_week`, `date`, `open`, ..., `promo_interval` |
| SnakeCase.MergedSnakeLabelsDistinct | rossmann_store_sales/web-app-rossmann-sales/rossmann/Rossmann.py:52-54 | those 17 snake-case labels are pairwise different |
| Calendar.DaysInMonth | rossmann_store_sales/web-app-rossmann-sales/rossmann/Rossmann.py:57 | a month has 28 to 31 days, and 29 exactly for February of a leap year |
| Calendar.ReadFormat | rossmann_store_sales/web-app-rossmann-sales/rossmann/Rossmann.py:57 | a date written as `%Y-%m-%d` is accepted and reads back as the same date |
| Calendar.FormatRead | rossmann_store_sales/web-app-rossmann-sales/rossmann/Rossmann.py:57 | an accepted `%Y-%m-%d` text writes back as the same text |
| Features.ParseDate | rossmann_store_sales/web-app-rossmann-sales/rossmann/Rossmann.py:57 | `to_datetime` of one cell. A valid date in the timestamp range parses to it; a valid date outside that range raises OutOfBoundsDatetime. A missing cell or a not-a-time word gives NaT. Other text raises DateParseError, and so does a number. A timestamp cell is kept exactly when it is in range. Any result is NaT or a timestamp that writes back as the input text |
| Features.ParseFormattedDate | rossmann_store_sales/web-app-rossmann-sales/rossmann/Rossmann.py:57 | every written date of the timestamp range parses back to itself |
| Features.ParsedIsDateColumn | rossmann_store_sales/web-app-rossmann-sales/rossmann/Rossmann.py:57 | a parsed column holds only timestamps and NaT |
| Rossmann.Clean | rossmann_store_sales/web-app-rossmann-sales/rossmann/Rossmann.py:48-65 | The stage finishes exactly when the snake-case labels are distinct, `date` exists and every date parses, `competition_distance` exists, and the frame has at least one row. Otherwise it raises the error of the first step that fails: DuplicateLabels, KeyError `date`, the first cell's parse error, KeyError `competition_distance`, or NoSamples when the imputer is given no rows. When it finishes, the labels are the snake-case names, `date` holds the parsed dates, `competition_distance` is the imputer applied to the renamed column, and every other column and the row count are kept |
| Rossmann.MergedRequestCleans | rossmann_store_sales/web-app-rossmann-sales/rossmann/Rossmann.py:52-60 | on the merged test and store labels that the bot and the dashboard send, cleaning never stops with DuplicateLabels, finishes exactly when there is a row and the dates parse, and leaves the 17 snake-case labels |
| Rossmann.Pipeline.DataCleaning | rossmann_store_sales/web-app-rossmann-sales/rossmann/Rossmann.py:48-65 | the argument frame is changed in place to what `Clean` gives, with its outcome, including NoSamples on a frame without rows |
| Calendar.DayOfYearIsOrdinal | rossmann_store_sales/web-app-rossmann-sales/rossmann/Rossmann.py:84 | the `%j` day is the days of the preceding months plus the day of month: 1..365, or 1..366 in a leap year |
| Calendar.DaysBeforeMonthTable | rossmann_store_sales/web-app-rossmann-sales/rossmann/Rossmann.py:84 | the cumulative-days table equals the month-by-month sum, plus one after February of a leap year |
| Digits.DecimalOfPad | rossmann_store_sales/web-app-rossmann-sales/rossmann/Rossmann.py:84-85 | reading the zero-padded `%j` text as an integer gives the day number back |
| Digits.PadOfDecimal | rossmann_store_sales/web-app-rossmann-sales/rossmann/Rossmann.py:84-85 | padding a digit string's value to its own width gives the string back |
| Features.CastInt | rossmann_store_sales/web-app-rossmann-sales/rossmann/Rossmann.py:85 | `astype(int)` yields only integers, and raises on a missing value |
| Features.DatePartsOfTimestamp | rossmann_store_sales/web-app-rossmann-sales/rossmann/Rossmann.py:81-88 | for a timestamp, day of month is in 1..31 and month in 1..12; day of year is the ordinal date in 1..366 |
| Features.DayOfYearCastsWithoutNaT | rossmann_store_sales/web-app-rossmann-sales/rossmann/Rossmann.py:84-85 | the `%j` column of a date column casts to integers exactly when it has no NaT |
| Features.RemapDayOfWeekRule | rossmann_store_sales/web-app-rossmann-sales/rossmann/Rossmann.py:94 | 7 becomes 0 and every other cell is unchanged, so 1..7 maps onto 0..6 |
| Features.RemapDayOfWeekInjective | rossmann_store_sales/web-app-rossmann-sales/rossmann/Rossmann.py:94 | two different weekdays 1..7 stay different after the remap |
| Rossmann.DateParts | rossmann_store_sales/web-app-rossmann-sales/rossmann/Rossmann.py:80-88 | `day_of_month`, `day_of_year` and `month` are added (or replaced), the other columns kept |
| Rossmann.DayOfWeekStage | rossmann_store_sales/web-app-rossmann-sales/rossmann/Rossmann.py:94 | the remap finishes exactly when `day_of_week` exists, and changes that column alone |
| Rossmann.Engineer | rossmann_store_sales/web-app-rossmann-sales/rossmann/Rossmann.py:68-118 | three labels are appended. The derived columns are the date parts of `date`. `day_of_week` is remapped. Every other column is kept |
| Rossmann.EngineerOutcome | rossmann_store_sales/web-app-rossmann-sales/rossmann/Rossmann.py:81-94 | the stage finishes exactly when `date` is a datetime column without NaT and `day_of_week` exists |
| Rossmann.EngineerValues | rossmann_store_sales/web-app-rossmann-sales/rossmann/Rossmann.py:81-94 | row by row, the derived columns are the calendar day, ordinal day and month of that row's date |
| Rossmann.Pipeline.FeatureEngineering | rossmann_store_sales/web-app-rossmann-sales/rossmann/Rossmann.py:68-118 | the argument frame is changed in place to what `Engineer` gives |
| Tables.KeepWhereMembers | rossmann_store_sales/web-app-rossmann-sales/rossmann/Rossmann.py:125 | a boolean selection keeps exactly the rows whose cell equals the value |
| Tables.KeepWhereAppend | rossmann_store_sales/web-app-rossmann-sales/rossmann/Rossmann.py:125 | the selection keeps row order: selecting from a concatenation concatenates the selections |
| Tables.ColumnOfKept | rossmann_store_sales/web-app-rossmann-sales/rossmann/Rossmann.py:125 | after the selection, a column is that column seen through the mask |
| Tables.KeptRowCount | rossmann_store_sales/web-app-rossmann-sales/rossmann/Rossmann.py:125 | the number of rows kept is the number of matching cells |
| Rossmann.Filter | rossmann_store_sales/web-app-rossmann-sales/rossmann/Rossmann.py:121-136 | The rows kept are those with `open == 1`, as many as there are such cells, and `open` is removed. Each other column is the original one seen through that mask. A missing `open` raises KeyError |
| Rossmann.Pipeline.DataFiltering | rossmann_store_sales/web-app-rossmann-sales/rossmann/Rossmann.py:121-136 | a new frame holding what `Filter` gives, or its error |
| Tables.DropColumns | rossmann_store_sales/web-app-rossmann-sales/rossmann/Rossmann.py:151-153 | the drop succeeds iff every listed label is present, and then removes exactly those; otherwise KeyError of an absent one |
| Features.AssortmentCode | rossmann_store_sales/web-app-rossmann-sales/rossmann/Rossmann.py:144-147 | the relabel then the encoding gives a↦0, b↦2 and anything else ↦1, never missing |
| Rossmann.PrepareStart | rossmann_store_sales/web-app-rossmann-sales/rossmann/Rossmann.py:144-153 | It finishes exactly when `assortment` and the three unavailable columns exist. `assortment` is relabelled and exactly the three columns are dropped; the rest is kept |
| Features.EncodeStoreType | rossmann_store_sales/web-app-rossmann-sales/rossmann/Rossmann.py:224-232 | a store type outside a, b, c, d maps to missing |
| Features.StoreTypeRoundTrip | rossmann_store_sales/web-app-rossmann-sales/rossmann/Rossmann.py:224 | the store type map is injective: decoding a known type's code gives the type back, and codes are 0..3 |
| Features.StoreTypeCodesRoundTrip | rossmann_store_sales/web-app-rossmann-sales/rossmann/Rossmann.py:224 | encoding the decoded code gives the code back |
| Features.BinCodeBracket | rossmann_store_sales/web-app-rossmann-sales/rossmann/Rossmann.py:208-210 | `pd.cut` with right-closed bins gives code i exactly when edges[i] < x <= edges[i+1], and -1 exactly outside the edges |
| Features.BinCodeMonotone | rossmann_store_sales/web-app-rossmann-sales/rossmann/Rossmann.py:208-210 | within the edges the code never decreases as the value grows |
| Features.BinValueRange | rossmann_store_sales/web-app-rossmann-sales/rossmann/Rossmann.py:208-212 | in-range values normalise into [0, 2], the last bin to exactly 2; out-of-range values give -1 over the divisor |
| Features.BinValue | rossmann_store_sales/web-app-rossmann-sales/rossmann/Rossmann.py:208-212 | discretizing a cell succeeds exactly when it is not text or a date, and gives a number |
| Features.BinConstants | rossmann_store_sales/web-app-rossmann-sales/rossmann/Rossmann.py:203-212 | both edge lists increase, and the divisors are 3 (distance) and 4 (year) |
| Features.ZeroDistanceOutOfRange | rossmann_store_sales/web-app-rossmann-sales/rossmann/Rossmann.py:204-208 | a competition distance of 0 (or less) lies in no bin |
| Features.CyclicValue | rossmann_store_sales/web-app-rossmann-sales/rossmann/Rossmann.py:269-270 | the sine or cosine of a cell succeeds exactly when it is not text or a date, and otherwise fails with NotNumeric for that column |
| Rossmann.CyclicColumn | rossmann_store_sales/web-app-rossmann-sales/rossmann/Rossmann.py:269-270 | the `apply` down a column gives one value per cell, CyclicValue's, and fails with NotNumeric exactly when some cell is text or a date |
| Rossmann.CyclicStep | rossmann_store_sales/web-app-rossmann-sales/rossmann/Rossmann.py:237-272 | For a column outside the cyclic list the table is returned as it was. For a cyclic column c it finishes exactly when no cell of c is text or a date, and otherwise raises NotNumeric(c). On success c is replaced by `c_sin` and `c_cos`, which hold, row by row, the sine and cosine of c's cell for c's period; every other column is kept |
| Rossmann.PrepareColumnCyclic | rossmann_store_sales/web-app-rossmann-sales/rossmann/Rossmann.py:157-272 | one iteration for a cyclic column finishes exactly when no cell is text or a date, and then writes the sine and cosine columns of its cells |
| Rossmann.PrepareColumnPasses | rossmann_store_sales/web-app-rossmann-sales/rossmann/Rossmann.py:157-272 | one iteration finishes exactly when its column's cells are accepted. ColumnPrepares means: for a cyclic column, no text and no date; otherwise every cell goes through CellPipeline, and a column with an imputer or a scaler has at least one row |
| Rossmann.PrepareColumnCells | rossmann_store_sales/web-app-rossmann-sales/rossmann/Rossmann.py:157-232 | For a column outside the cyclic list, one iteration rewrites that one column. Each cell goes through impute, scale, bin and encode in that order. The iteration fails exactly when some cell fails, or when the column has an imputer or a scaler and the table has no rows; that case ends with NoSamples and leaves the table as it was |
| Rossmann.PrepareColumnEffect | rossmann_store_sales/web-app-rossmann-sales/rossmann/Rossmann.py:157-272 | One iteration keeps the labels for a non-cyclic column. For a cyclic column it adds the sine and cosine labels and removes the column. Every other column is kept |
| Rossmann.PrepareColumnsShape | rossmann_store_sales/web-app-rossmann-sales/rossmann/Rossmann.py:157-272 | for a frame with no label ending in `_sin` or `_cos`: after the loop the labels are the non-cyclic labels in their places, then a sine and cosine pair for each cyclic label, in visiting order |
| Rossmann.PrepareColumnsKeeps | rossmann_store_sales/web-app-rossmann-sales/rossmann/Rossmann.py:157-272 | a column the loop does not visit comes out unchanged |
| Rossmann.PrepareColumnsCells | rossmann_store_sales/web-app-rossmann-sales/rossmann/Rossmann.py:157-272 | a visited non-cyclic column comes out of the whole loop transformed cell by cell as one iteration says |
| Rossmann.PrepareColumnsPass | rossmann_store_sales/web-app-rossmann-sales/rossmann/Rossmann.py:157-272 | the loop over distinct labels, none ending in `_sin` or `_cos`, finishes exactly when every visited column's cells are accepted |
| Rossmann.PrepareColumnsLeave | rossmann_store_sales/web-app-rossmann-sales/rossmann/Rossmann.py:157-272 | a column that no iteration writes (not a visited label, nor its sine or cosine label) comes out of the loop unchanged |
| Rossmann.PrepareColumnsTrig | rossmann_store_sales/web-app-rossmann-sales/rossmann/Rossmann.py:157-272 | a visited cyclic column's sine and cosine columns, after the whole loop, hold the sine and cosine of that column's cells |
| Rossmann.PrepareOutcome | rossmann_store_sales/web-app-rossmann-sales/rossmann/Rossmann.py:139-272 | for a request with no label ending in `_sin` or `_cos`, data_preparation's loop finishes exactly when the opening relabel and drop succeed and every remaining column's cells are accepted |
| Rossmann.PrepareInPlaceShape | rossmann_store_sales/web-app-rossmann-sales/rossmann/Rossmann.py:139-272 | for a request with no label ending in `_sin` or `_cos`: the frame data_preparation leaves behind has the non-cyclic labels followed by the sine and cosine pairs |
| Rossmann.Prepare | rossmann_store_sales/web-app-rossmann-sales/rossmann/Rossmann.py:139-300 | the returned frame has exactly the 15 selected columns, in that order, and the same rows (when it succeeds: PrepareOutcome, MergedRequestPrepares; never on a table without rows: PreparedHasRows) |
| Rossmann.SelectedLabels | rossmann_store_sales/web-app-rossmann-sales/rossmann/Rossmann.py:275-291 | the selection has 15 distinct labels and omits `month_sin` |
| Rossmann.PreparedCells | rossmann_store_sales/web-app-rossmann-sales/rossmann/Rossmann.py:139-294 | a selected non-cyclic column is returned as its cell-by-cell transformation |
| Rossmann.PreparedTrig | rossmann_store_sales/web-app-rossmann-sales/rossmann/Rossmann.py:139-294 | each selected sine or cosine column holds, row by row, the sine or cosine of the request's cyclic column for its period, when the request has no column of that sine or cosine label |
| Rossmann.MergedRequestReaches | rossmann_store_sales/web-app-rossmann-sales/rossmann/Rossmann.py:48-133 | a merged test/store request that is cleaned and engineered reaches data_preparation with its snake-case labels other than `open` plus the three date parts |
| Rossmann.PrepareColumnsNoRows | rossmann_store_sales/web-app-rossmann-sales/rossmann/Rossmann.py:157-193 | on a table without rows, a column loop that finishes visited no column with an imputer or a scaler |
| Rossmann.PrepareColumnsOrigin | rossmann_store_sales/web-app-rossmann-sales/rossmann/Rossmann.py:157-272 | every label after a finished loop either ends in `_sin`/`_cos` or was there before the loop |
| Rossmann.PreparedHasRows | rossmann_store_sales/web-app-rossmann-sales/rossmann/Rossmann.py:139-300 | data_preparation succeeds only on a table with at least one row, because the `store` column it returns is scaled and the scaler refuses an empty array |
| Rossmann.PrepareColumnsEmpty | rossmann_store_sales/web-app-rossmann-sales/rossmann/Rossmann.py:157-272 | on a table without rows, the only error the column loop can stop with is NoSamples |
| Rossmann.MergedRequestNoRows | rossmann_store_sales/web-app-rossmann-sales/rossmann/Rossmann.py:139-193 | a merged request with no row left after filtering ends data_preparation with NoSamples |
| Rossmann.MergedRequestPrepares | rossmann_store_sales/web-app-rossmann-sales/rossmann/Rossmann.py:139-294 | for those labels the opening relabel and drop succeed, the selection of the 15 labels cannot fail, and data_preparation succeeds exactly when every remaining column's cells are accepted |
| Rossmann.StorePrepared | rossmann_store_sales/web-app-rossmann-sales/rossmann/Rossmann.py:180-193 | the returned `store` column is the request's store column, scaled, and nothing else |
| Rossmann.AssortmentPrepared | rossmann_store_sales/web-app-rossmann-sales/rossmann/Rossmann.py:144-147 | every assortment value the model sees is 0 for a, 2 for b and 1 for anything else |
| Rossmann.Pipeline.ImputeInPlace | rossmann_store_sales/web-app-rossmann-sales/rossmann/Rossmann.py:160-172 | the frame is changed to what the impute step gives |
| Rossmann.Pipeline.ScaleInPlace | rossmann_store_sales/web-app-rossmann-sales/rossmann/Rossmann.py:180-193 | the frame is changed to what the scale step gives |
| Rossmann.Pipeline.BinInPlace | rossmann_store_sales/web-app-rossmann-sales/rossmann/Rossmann.py:198-212 | the frame is changed to what the bin step gives, or left as it was when it raises |
| Rossmann.Pipeline.EncodeInPlace | rossmann_store_sales/web-app-rossmann-sales/rossmann/Rossmann.py:218-232 | the frame is changed to what the encode step gives |
| Rossmann.Pipeline.CyclicInPlace | rossmann_store_sales/web-app-rossmann-sales/rossmann/Rossmann.py:237-272 | the frame is changed to what the cyclic step gives, or left as it was when it raises |
| Rossmann.Pipeline.PrepareColumnStep | rossmann_store_sales/web-app-rossmann-sales/rossmann/Rossmann.py:157-272 | one iteration changes the frame as `PrepareColumn` says |
| Rossmann.Pipeline.PrepareStartInPlace | rossmann_store_sales/web-app-rossmann-sales/rossmann/Rossmann.py:144-153 | the relabel and the drop change the frame as `PrepareStart` says |
| Rossmann.Pipeline.DataPreparation | rossmann_store_sales/web-app-rossmann-sales/rossmann/Rossmann.py:139-300 | the argument frame ends as `PrepareInPlace` says; the returned new frame is `Prepare`'s result, or its error |
| Rossmann.Predicted | rossmann_store_sales/web-app-rossmann-sales/rossmann/Rossmann.py:303-331 | `predicted_sales` is `expm1` of the model output. `store` is mapped through the inverse scaler. Every other column is kept. It fails exactly when the model's output length is wrong, `store` is absent, or the frame has no rows (NoSamples from the inverse scaler, after `predicted_sales` is assigned) |
| Rossmann.StoreRecovered | rossmann_store_sales/web-app-rossmann-sales/rossmann/Rossmann.py:321-323 | when the inverse scaler undoes the scaler, the response's store numbers are the request's |
| Rossmann.Pipeline.GetPrediction | rossmann_store_sales/web-app-rossmann-sales/rossmann/Rossmann.py:303-334 | the prepared frame is changed in place as `Predicted` says and is also what is returned; a frame without rows ends with NoSamples |
| Handler.ShapeBody | rossmann_store_sales/web-app-rossmann-sales/handler.py:32-37 | An object gives one row under its keys. A list gives one row per record, under the first record's keys. A missing key gives a missing cell |
| Handler.ArrayRoundTrip | rossmann_store_sales/web-app-rossmann-sales/handler.py:37 | a table sent as a list of records is rebuilt as the same table |
| Handler.ObjectRoundTrip | rossmann_store_sales/web-app-rossmann-sales/handler.py:32-33 | an object gives the one-row table whose only record is that object |
| Frames.Frame.Copy | rossmann_store_sales/web-app-rossmann-sales/handler.py:40 | the copy is a new frame with the same contents |
| Handler.RunStages | rossmann_store_sales/web-app-rossmann-sales/handler.py:46-58 | Never the empty reply. A failing cleaning, engineering, filtering, preparation or prediction stage gives a server error with that stage's error, checked in that order; when all pass, the reply is the records of the prediction |
| Handler.Respond | rossmann_store_sales/web-app-rossmann-sales/handler.py:25-67 | the reply is the literal `{}` with status 200 and JSON type exactly when the body is not truthy; for a truthy body the reply is exactly that of the stage chain (RunStages) run on the shaped body, so the response is get_prediction's result |
| Handler.RunStagesShape | rossmann_store_sales/web-app-rossmann-sales/handler.py:46-58 | a successful reply has the 15 prepared columns plus `predicted_sales`, and one row per renamed `open` cell equal to 1; there is at least one such cell |
| Handler.RespondRows | rossmann_store_sales/web-app-rossmann-sales/handler.py:25-61 | the reply has one record per request record whose `Open` is 1, and at least one record |
| Handler.NoOpenRowsFails | rossmann_store_sales/web-app-rossmann-sales/handler.py:46-58 | a merged request with no open row, once cleaned and engineered, gets the server error NoSamples from data_preparation |
| Handler.RunPipeline | rossmann_store_sales/web-app-rossmann-sales/handler.py:43-58 | the stages run in order on the request frame, which cleaning and engineering change in place; the response is `RunStages` of it |
| Handler.RossmannPredict | rossmann_store_sales/web-app-rossmann-sales/handler.py:25-67 | The response is `Respond`'s. A copy of the request table is taken exactly when there is a body, and that copy still holds the original table after the stages have run |
| Bot.RemoveSlashes | rossmann_store_sales/rossmann-telegram-api/rossmann-bot.py:83 | no slash remains, and every other character keeps its count |
| Bot.RemoveSlashesConcat | rossmann_store_sales/rossmann-telegram-api/rossmann-bot.py:83 | slash removal works piece by piece, so the order of the other characters is kept |
| Bot.RemoveSlashesKeeps | rossmann_store_sales/rossmann-telegram-api/rossmann-bot.py:83 | text without a slash is unchanged |
| Bot.ParseIntText | rossmann_store_sales/rossmann-telegram-api/rossmann-bot.py:87 | `int()` of the decimal text of any integer gives that integer |
| Bot.ParseIntNeedsDigit | rossmann_store_sales/rossmann-telegram-api/rossmann-bot.py:85-91 | text without a digit raises ValueError |
| Bot.ParseMessage | rossmann_store_sales/rossmann-telegram-api/rossmann-bot.py:76-94 | It returns the chat id. When the text with every `/` removed parses as an integer, the store id is that integer; otherwise it is the sentinel. An update without text raises KeyError |
| Bot.CommandStoreId | rossmann_store_sales/rossmann-telegram-api/rossmann-bot.py:76-94 | `/` followed by a number gives that number |
| Bot.NoDigitGivesSentinel | rossmann_store_sales/rossmann-telegram-api/rossmann-bot.py:85-91 | a message without a digit (such as `/start`) gives the sentinel |
| Bot.LoadDataset | rossmann_store_sales/rossmann-telegram-api/rossmann-bot.py:28-52 | It gives the no-data sentinel exactly when no merged row has that store. Otherwise it gives only that store's rows, all of them, under the merged labels |
| Bot.LoadDatasetRows | rossmann_store_sales/rossmann-telegram-api/rossmann-bot.py:39 | a row is in the payload exactly when it is a merged row of that store |
| Bot.Forecast | rossmann_store_sales/rossmann-telegram-api/rossmann-bot.py:128-137 | A missing `store` or `predicted_sales` raises KeyError. A store without predictions raises IndexError at `values[0]`. Otherwise there is a total |
| Bot.ForecastTotal | rossmann_store_sales/rossmann-telegram-api/rossmann-bot.py:128-137 | the total is the sum of the predicted sales of exactly the store's rows |
| Bot.SumOfKept | rossmann_store_sales/rossmann-telegram-api/rossmann-bot.py:128-132 | summing the selected rows equals the reference sum over rows of that store |
| Bot.Index | rossmann_store_sales/rossmann-telegram-api/rossmann-bot.py:55-161 | A GET gives the bot page. A served POST answers `Ok` with status 200 after exactly one chat message. A POST crashes only for an update without text, or after both the data read and the prediction request. In that case the store id is a number with rows, and the error is the one `predict` raised or, when `predict` succeeded, the one the sum raised |
| Bot.IndexReplies | rossmann_store_sales/rossmann-telegram-api/rossmann-bot.py:55-157 | a non-number id skips the data; a store without rows skips the prediction; a failing `predict` ends the request with its exception; a failing sum ends it with the sum's exception; when `predict` and the sum succeed, the bot answers `Ok` with status 200 after sending the store's total, the independent SumWhere over that store's predicted rows |
| Bot.WrongIdTextsDiffer | rossmann_store_sales/rossmann-telegram-api/rossmann-bot.py:146-154 | the two wrong-id texts differ, and only in the case of one letter |
| Dashboard.GetDateFiltered | rossmann_store_sales/rossmann-streamlit/rossmann-st.py:71-91 | a missing `Open` raises KeyError first, then a missing `Date`; otherwise there is a series |
| Dashboard.DateFilteredRows | rossmann_store_sales/rossmann-streamlit/rossmann-st.py:85 | the series holds the dates of exactly the open rows, in row order, each labelled with its row position |
| Dashboard.OpenDatesComplete | rossmann_store_sales/rossmann-streamlit/rossmann-st.py:85 | every open row's date is in the series under that row's position |
| Dashboard.AttachByLabel | rossmann_store_sales/rossmann-streamlit/rossmann-st.py:108 | as written: prediction row i gets the date labelled i, or a missing date when that row was closed |
| Dashboard.LabelAlignmentMisplacesDates | rossmann_store_sales/rossmann-streamlit/rossmann-st.py:108 | a closed row before an open one leaves the only prediction without a date by label; by position it gets the right one |
| Dashboard.Attach | rossmann_store_sales/rossmann-streamlit/rossmann-st.py:108 | as intended: the k-th date goes to the k-th prediction, the other columns are kept, and a length mismatch raises |
| Dashboard.AlignmentsAgreeWhenAllOpen | rossmann_store_sales/rossmann-streamlit/rossmann-st.py:85-108 | when every row is open, the label and position alignments give the same frame |
| Dashboard.MakeRequest | rossmann_store_sales/rossmann-streamlit/rossmann-st.py:35-68 | The `{}` reply raises KeyError at `[0]`; a server error's page raises JsonDecodeError at `r.json()`; an empty list raises IndexError. Otherwise the frame read from the reply is exactly the table the API sent, with distinct labels |
| Dashboard.DatesMatchPredictions | rossmann_store_sales/rossmann-streamlit/rossmann-st.py:237-246 | the API keeps the open rows, so the filtered dates and the predictions have the same length and attaching by position cannot fail |
| Dashboard.ScenarioTraces | rossmann_store_sales/rossmann-streamlit/rossmann-st.py:130-154 | one trace per selected scenario, all over the store's dates |
| Dashboard.ScenarioTracesOrder | rossmann_store_sales/rossmann-streamlit/rossmann-st.py:130-154 | the traces keep the order Expected, Best, Worst |
| Dashboard.ScenarioTracesSelected | rossmann_store_sales/rossmann-streamlit/rossmann-st.py:130-154 | each scenario has its trace exactly when it is selected |
| Dashboard.ScenarioFigure | rossmann_store_sales/rossmann-streamlit/rossmann-st.py:126-154 | the new figure, after one `add_trace` per selected scenario, holds exactly the traces `ScenarioTraces` lists |
| Dashboard.PlotSpec | rossmann_store_sales/rossmann-streamlit/rossmann-st.py:94-157 | The result is None exactly when the store has no predicted rows. Every trace's x values are the dates of exactly that store's rows |
| Dashboard.Figure.AddTrace | rossmann_store_sales/rossmann-streamlit/rossmann-st.py:131 | the trace is appended to the figure |
| Dashboard.InteractivePlot | rossmann_store_sales/rossmann-streamlit/rossmann-st.py:94-157 | the frame gains the `date` column in place; the figure is null exactly when `PlotSpec` says None, and otherwise holds the traces `PlotSpec` gives, in order |
| Dashboard.ShowPage | rossmann_store_sales/rossmann-streamlit/rossmann-st.py:219-257 | with no scenario selected the page only prompts and loads nothing; otherwise it loads the data, requests predictions, and shows what `ShownSpec` says |
| Dashboard.PageForStore | rossmann_store_sales/rossmann-streamlit/rossmann-st.py:246-257 | with consistent data, the page says the store does not exist exactly when the store has no predicted rows |

## Left out

- The unpickling of the imputers, scalers, model and MAE dictionary: these are parameters. `Transformers` holds the fitted transformers as per-cell functions, the model is a function from tables to predictions, and the MAE dictionary is a `map`.
- Floating point: sine, cosine, `expm1` and π are parameters (`Numerics`). Prediction values are opaque cells, and the scenario `round(... ± mae, 2)` is the abstract `best`/`worst` function. The `{:,.2f}` formatting of the bot's message is not modelled; the reply carries the number.
- The transformers are assumed not to fail on a cell. A scikit-learn transformer raising on a bad cell is not modelled. Their refusal of an array with no rows is modelled as NoSamples: the competition-distance imputer in `Rossmann.Clean`, the imputers and scalers in `Rossmann.PrepareColumn`, and the inverse store scaler in `Rossmann.Predicted`.
- JSON, CSV and HTTP: reading test.csv and store.csv and merging them is a parameter (the merged table). So are Flask request handling, the prediction service call, Telegram's sendMessage, and the Streamlit widgets, progress bar, cache and README checkbox. The dashboard's call chain is modelled as the functions it calls.
- Rossmann.Clean: when two labels snake-case to the same name, the stage stops with DuplicateLabels before renaming, while pandas would carry the duplicate labels on. The model keeps labels distinct throughout; `Rossmann.MergedRequestCleans` shows this never happens on the merged test and store data.
- Features.ParseDate: only strict `YYYY-MM-DD` text, the not-a-time words and missing cells are read. pandas' looser acceptance of other spellings is not modelled.
- Bot.ParseInt: only ASCII whitespace is stripped, and only ASCII digits are read. Python's `int()` also accepts Unicode whitespace and digits.
- Bot.SalesOf: a non-numeric `predicted_sales` cell counts as 0, where pandas would concatenate or raise.
- Bot.ParseMessage: an update without `message` or `chat` is not modelled. An update without `text` raises KeyError.
- Handler.ShapeBody: JSON bodies that are scalars, or lists whose items are not objects, are not modelled.
- Numeric comparison: a float store number equal to an integer matches it, as in pandas. Equality of floats beyond that is not modelled.
- The `week_number` entry (period 52) of the period table: no column of the cyclic list reaches it, so the model's period table leaves it out.
- The `original_data` argument of get_prediction: the source never uses it, so the model does not take it. The JSON serialisation of the result is the returned table.
- Rossmann.PrepareColumnsPass, Rossmann.PrepareOutcome: the success condition is stated only for frames where no label ends in `_sin` or `_cos`, for the same reason as the next line; the merged test/store requests meet that condition (`Rossmann.MergedRequestPrepares`).
- Rossmann.PreparedTrig: stated only when the request has no column already named `c_sin` or `c_cos`; the loop writes over such a column, or visits it later, and the model does not follow that case.
- Rossmann.PrepareColumnsShape, Rossmann.PrepareInPlaceShape: stated only for frames where no label ends in `_sin` or `_cos`. A request column such as `MonthSin` (renamed `month_sin`) is overwritten by the loop, and the final label list for such a request is not stated; `Rossmann.PrepareColumnEffect` still gives each iteration's effect.
- Dashboard.Attach: the model uses the corrected, positional attachment (see Findings). The as-written label alignment is `Dashboard.AttachByLabel`.
- Aliasing between frames is not modelled beyond `Copy` giving a fresh object. In the model `df[mask]` always makes a new frame.

## Findings

| source | as written | input that shows it | evidently intended | confidence | as-written member | corrected member |
|---|---|---|---|---|---|---|
| rossmann_store_sales/rossmann-streamlit/rossmann-st.py:108 | `data_predicted['date'] = filtered_dates` aligns the Series by index label. The predictions are labelled 0, 1, 2, ... and the dates carry the row positions of the open rows, so after the first closed row each prediction takes the date of whatever row has its position | loaded rows (Open 0, 2015-08-01) and (Open 1, 2015-08-02): the one prediction gets no date instead of 2015-08-02 | attach the k-th open date to the k-th prediction (`filtered_dates.values`) | not executed | Dashboard.AttachByLabel, Dashboard.LabelAlignmentMisplacesDates | Dashboard.Attach, Dashboard.DatesMatchPredictions |
