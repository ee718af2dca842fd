# Bike-station forecasting core, modelled in Dafny

This project models the forecasting core of a bike-share dashboard. The core
takes a city's hourly table of station occupancy rates, one column per station.
It splits the table chronologically into a training part and a test part, and
fits per-station forecasters of several kinds:

- multiple linear regression on calendar features, lags and one-hot day indicators;
- XGBoost with a lag of one horizon and a KMeans station cluster;
- a random forest over sliding windows;
- LightGBM on 30-day windows stepped by a week;
- Ridge and a random forest averaged;
- XGBoost on a PCA of the calendar features;
- a PCA reconstruction of the weekly mean profile;
- the plain weekly mean profile.

Each forecaster forecasts the hours that follow a series of recent
observations. The core also computes weighted MSE/MAE metrics that ignore
interpolated points. Around it sit a few data helpers: a date-range filter, a
masked and optionally reordered correlation matrix, batching of the coordinates
for the distance-matrix service, and the `variables.env` loader that supplies
its key.

How the model is built:

- **Time.** Timestamps are whole hours counted from Monday 1970-01-05 00:00.
  Hour, weekday, day of month (proleptic Gregorian) and month are computed from them.
- **Tables.** A data frame is a list of timestamps, a list of station names and
  one column of reals per station.
- **Fitted estimators.** Fitted scalers, regressors, PCA fits and KMeans
  clusterings are opaque values that wrap functions. The fitting procedure of
  each strategy is a parameter of its constructor.
- **Model files.** Each strategy's saved files are maps held by its object.
  A file exists when its station is a key of the map.
- **Errors.** Every Python exception the code can raise on its inputs is an
  `Err` value. Examples: the missing model, the empty history, the frame of the
  wrong length, the scaler that refuses a column layout, the malformed
  `variables.env` line.

Training loops are methods over the strategy's maps. Each one is stated
against a ghost list of what it keeps for every station (loaded or freshly
fitted), overlaid on the old map. Forecasts are functions proved against the
forecast index, the feature rows and clipping.

Where the code departs from the system's documented behaviour, the model
follows the code:

- the Ridge/random-forest forecast is not clipped to [0, 1];
- the XGBoost-on-PCA forecast starts at the last observed hour, not the hour after;
- the mean profile lists every weekday, each with only the hours that were observed;
- the multiple-linear-regression `predict` one-hot encodes the day indicators
  over the categories present in the forecast hours, as the code does (see
  Findings). `Mlr.Forecast` is the corrected reference, and the two agree when
  the forecast hours cover every weekday;
- `PCApredictor.py` imports its base class from `forecast_model`, which does not
  define it. The model reads the class as the `PredictSetup` subclass that its
  constructor call describes.

## Model

| member | source | states |
|---|---|---|
| PredictionSetup.PredictSetup.constructor | data/prediction/prediction_setup.py:10-17 | keeps the city's table and splits it at ⌊n·train_size⌋ into the training head and the test tail |
| PredictionSetup.PredictSetup.SplitData | data/prediction/prediction_setup.py:19-22 | training and test parts are the head and tail of the dataset and together give back all its dates |
| PredictionSetup.ForecastIndexFromSeries | data/prediction/prediction_setup.py:24-30 | an empty series fails; otherwise the index is the hours last+1 … last+P, consecutive, and empty when P ≤ 0 |
| Frames.SplitPointInRange | data/prediction/prediction_setup.py:20 | the split point is ⌊n·train_size⌋ and lies in [0, n] for a train size in [0, 1] |
| Frames.SplitIsPartition | data/prediction/prediction_setup.py:19-22 | train and test keep the station names, and their dates and every column concatenate back to the original |
| Frames.SplitSizes | data/prediction/forecast_model.py:26-29 | the training part has ⌊n·train_size⌋ rows and the test part has the rest |
| ForecastModel.ForecastModel.constructor | data/prediction/forecast_model.py:17-24 | keeps the city and train size and splits the dataset into head and tail |
| ForecastModel.ForecastModel.SplitData | data/prediction/forecast_model.py:26-29 | training and test parts are the head and tail of the dataset and partition its dates |
| ForecastModel.CreateFeaturesFromDate | data/prediction/forecast_model.py:45-53 | one row per timestamp: hour in 0..23, weekday in 0..6, day of month in 1..31, weekend flag set exactly on weekdays ≥ 5, Sunday flag exactly on weekday 6, Sunday implies weekend |
| ForecastModel.FeaturesArePointwise | data/prediction/forecast_model.py:45-53 | the features of a concatenation are the concatenation of the features, so each row depends on its own timestamp only |
| ForecastModel.ForecastIndexForecasting | data/prediction/forecast_model.py:55-57 | an empty series fails; otherwise the index starts at the last timestamp itself and has max(P, 0) consecutive hours |
| ForecastModel.Weights | data/prediction/forecast_model.py:61-63 | a weight is 0 exactly when exclusion is on and the point is interpolated, otherwise 1 |
| ForecastModel.MetricSelection | data/prediction/forecast_model.py:65-70 | the result's keys are exactly those the metric name selects ("all" gives both); an unknown name gives an empty dict; each value is the weighted metric of its kind; the call fails exactly when a selected metric has zero total weight |
| ForecastModel.MetricNonNegative | data/prediction/forecast_model.py:66-69 | with non-negative weights, a weighted MSE or MAE is never negative |
| ForecastModel.MetricZeroWhenExact | data/prediction/forecast_model.py:66-69 | a forecast that matches reality wherever the weight is non-zero scores 0 |
| ForecastModel.AllInterpolatedFails | data/prediction/forecast_model.py:61-69 | when every point is interpolated and excluded, the weighted metric fails with zero total weight |
| ForecastModel.WeightedTotals | data/prediction/forecast_model.py:67-69 | the loop's two sums are the weighted sum of errors and the sum of weights |
| ForecastModel.ComputeMetric | data/prediction/forecast_model.py:66-69 | equals the weighted metric of the weight array's contents |
| ForecastModel.GetMetrics | data/prediction/forecast_model.py:59-70 | builds the weights in an array (1, then 0 at interpolated points when excluding) and returns the metrics dict with exactly the selected keys |
| Calendar.Hour | data/prediction/forecast_model.py:48 | the hour is in 0..23 and differs from the timestamp by whole days |
| Calendar.DayOfWeek | data/prediction/forecast_model.py:49 | the weekday is in 0..6, Monday being 0 |
| Calendar.HourPeriodic | data/prediction/forecast_model.py:48 | the hour repeats every 24 hours |
| Calendar.WeekPeriodic | data/prediction/methods/PCApredictor.py:42-45 | hour and weekday repeat every 168 hours |
| Calendar.DayOfMonth | data/prediction/forecast_model.py:50 | the day of month is in 1..31 |
| Calendar.Month | data/prediction/methods/MLR.py:45 | the month is in 1..12 |
| Sequences.Shift | data/prediction/methods/MLR.py:24 | `shift(d)`: position i holds the value d places earlier, missing where that falls outside |
| Sequences.FillMissing | data/prediction/methods/MLR.py:24 | `fillna(v)`: missing entries become v and present ones are kept |
| Sequences.LastShape | data/prediction/methods/MLR.py:84 | `s[-k:]` has min(k, n) elements, the last ones of s in order |
| Sequences.Clip | data/prediction/methods/MLR.py:102 | the clipped value lies in [0, 1], equals the input inside, 0 below and 1 above |
| Sequences.ClipAll | data/prediction/methods/MLR.py:102 | `clip(0, 1)`: every value lands in [0, 1], values inside are kept, values below become 0 and values above become 1 |
| Tables.Assign | data/prediction/methods/MLR.py:24 | `df[name] = col`: the column reads back as col; a new name is appended at the end and an existing one is overwritten in place, other columns kept |
| Tables.CategoriesMembers | data/prediction/methods/MLR.py:51 | `get_dummies` lists a category exactly when it occurs in the column |
| Tables.CategoriesIncreasing | data/prediction/methods/MLR.py:51 | the categories are listed in increasing order |
| Tables.GetDummiesOfThree | data/prediction/methods/MLR.py:51 | the three encoded columns append their indicator columns in order, after the other columns, each without its first category |
| Tables.GetDummiesOfFullColumns | data/prediction/methods/MLR.py:51 | when every declared category occurs, encoding over the observed categories equals encoding over the declared ones |
| Tables.CategoriesOfConstantColumn | data/prediction/methods/MLR.py:91 | a column holding one value has exactly that category, so dropping the first leaves none |
| Tables.FillFromProperties | data/prediction/methods/MLR.py:93-95 | the filling loop keeps every existing column, appends zero columns only for missing names, and leaves no fitted name missing |
| MeanPredictor.PredictByMean | data/prediction/methods/mean_predictor.py:3-9 | one row per (weekday, hour) over all seven weekdays and the observed hours, in sorted order; each cell is the mean of the station's values at that weekday and hour, or none where nothing was observed |
| MeanPredictor.MeanTableCoversRows | data/prediction/methods/mean_predictor.py:9 | every observed row's weekday and hour has a row in the table, with a defined mean |
| MeanPredictor.MeanReproducesProfile | data/prediction/methods/mean_predictor.py:9 | a series that is a function of (weekday, hour) is given back exactly by its group means |
| MeanPredictor.MeanWithinBounds | data/prediction/methods/mean_predictor.py:9 | every group mean lies between the bounds of the values |
| PcaPredictor.ObservedKeys | data/prediction/methods/PCApredictor.py:18-25 | `observed=True`: the (weekday, hour) keys that occur, in sorted order |
| PcaPredictor.ObservedMeanTable | data/prediction/methods/PCApredictor.py:25 | one row per observed key, each cell the station's mean at that key |
| PcaPredictor.Reconstruct | data/prediction/methods/PCApredictor.py:27-34 | succeeds exactly when the fit's shapes conform; each cell is the leading k scores of its station's profile combined with the leading k components, keyed like the mean table |
| PcaPredictor.ReconstructionUsesLeadingComponents | data/prediction/methods/PCApredictor.py:28-31 | two fits that agree on the leading k components and scores give the same reconstruction |
| PcaPredictor.ProfileAt | data/prediction/methods/PCApredictor.py:45 | a lookup is defined exactly when the key is a row of the model |
| PcaPredictor.PredictByPca.constructor | data/prediction/methods/PCApredictor.py:13-15 | untrained, with the split data, horizon and number of components |
| PcaPredictor.PredictByPca.Train | data/prediction/methods/PCApredictor.py:17-34 | the model becomes the reconstruction of the observed mean table; a non-conformable fit leaves it unchanged and reports the error |
| PcaPredictor.PredictByPca.Predict | data/prediction/methods/PCApredictor.py:36-48 | fails when untrained, for an unknown station or on an empty series; otherwise the forecast hours are last+1 … last+P, each the clipped model value at its (weekday, hour), missing exactly when that key was never observed |
| PcaPredictor.PredictByPca.PredictRepeatsWeekly | data/prediction/methods/PCApredictor.py:40-46 | the forecast repeats itself every 168 hours |
| Mlr.CalendarTable | data/prediction/methods/MLR.py:42-47 | the numeric calendar columns hour, day_of_month and month of each timestamp |
| Mlr.WithLagsAppends | data/prediction/methods/MLR.py:23-24 | assigning lag_1 … lag_L to a frame without lag columns appends them in order |
| Mlr.ObservedDummiesLayout | data/prediction/methods/MLR.py:51 | the code's encoding appends day_of_week, is_weekend and is_sunday indicators over the categories found in the dates, first one dropped |
| Mlr.DeclaredDummiesLayout | data/prediction/methods/MLR.py:91 | the corrected encoding appends the eight indicators day_of_week_1 … 6, is_weekend_True and is_sunday_True |
| Mlr.ObservedIsDeclaredOnFullWeeks | data/prediction/methods/MLR.py:51 | when every weekday occurs, the two encodings coincide |
| Mlr.ObservedDummiesOfOneDay | data/prediction/methods/MLR.py:91 | dates within a single weekday get no indicator column at all |
| Mlr.TrainLag | data/prediction/methods/MLR.py:24 | lag k at row i is the value k + P rows earlier, 0 before the start |
| Mlr.TrainingFeatureLayout | data/prediction/methods/MLR.py:39-53 | training data covering every weekday yields the columns hour, day_of_month, month, lag_1 … lag_L, then the eight indicators |
| Mlr.ForecastLag | data/prediction/methods/MLR.py:84-89 | a forecast lag column fails exactly when k < len(history) < P; otherwise it holds the history value k + P hours before each forecast hour (0 where none), or zeros when k ≥ len(history) |
| Mlr.LagsFailAt | data/prediction/methods/MLR.py:85-87 | some lag column fails exactly when lag_1 does |
| Mlr.FutureFeatures | data/prediction/methods/MLR.py:76-95 | the corrected forecast frame fails, with a length mismatch, exactly when the lag assignment does, and otherwise has P rows |
| Mlr.Forecast | data/prediction/methods/MLR.py:68-105 | the corrected forecast: empty series and P = 0 fail; a length mismatch happens exactly when lags ≥ 1 and 2 ≤ len(data) < P; the scaler refuses the frame exactly when its columns are not the fitted ones; on success the index is last+1 … last+P and value j is the clipped prediction of the scaled row j of the corrected frame over the last lags + P observations |
| Mlr.PredictFrame | data/prediction/methods/MLR.py:97-102 | a frame that could not be built passes its error on; one whose columns are not the scaler's is refused; otherwise value j is row j scaled, predicted and clipped, over the given index |
| Mlr.ForecastLagIsEarlierObservation | data/prediction/methods/MLR.py:84-87 | with enough history, forecast lag k at hour j is the observation k + P hours earlier, as in training |
| Mlr.FutureFeaturesMatchTraining | data/prediction/methods/MLR.py:91-97 | the corrected forecast frame has exactly the training feature names in training order |
| Mlr.ForecastSucceeds | data/prediction/methods/MLR.py:68-105 | with a scaler fitted on the training layout, the corrected forecast succeeds on every non-empty series with P ≥ 1 unless lags ≥ 1 and 2 ≤ len(data) < P |
| Mlr.SundayWindowLosesItsDay | data/prediction/methods/MLR.py:91-95 | under the code's encoding, a window within one Sunday gets is_sunday_True filled with zeros |
| Mlr.DeclaredDummiesMarkSundays | data/prediction/methods/MLR.py:82 | under the corrected encoding, is_sunday_True is 1 exactly at the Sunday hours |
| Mlr.FutureFeaturesAsWritten | data/prediction/methods/MLR.py:76-95 | the code's forecast frame fails, with a length mismatch, exactly when the lag assignment does, and otherwise has P rows |
| Mlr.ForecastAsWritten | data/prediction/methods/MLR.py:68-105 | the code's forecast: empty series and P = 0 fail; a length mismatch happens exactly when lags ≥ 1 and 2 ≤ len(data) < P; the scaler refuses the frame exactly when the code's columns are not the fitted ones; on success the index is last+1 … last+P and value j is the clipped prediction of the scaled row j of the code's frame |
| Mlr.FutureFeaturesAgree | data/prediction/methods/MLR.py:91-95 | when the forecast hours cover every weekday, the code's forecast frame is the corrected one |
| Mlr.AsWrittenAgreesOnFullWeeks | data/prediction/methods/MLR.py:68-105 | when the forecast hours cover every weekday, the code's forecast equals the corrected forecast |
| Mlr.TwoWeekdayWindowRefused | data/prediction/methods/MLR.py:91-99 | a two-hour forecast from Tuesday 22:00 is refused by the scaler as written, and accepted by the corrected forecast |
| Mlr.SundayForecastAsMonday | data/prediction/methods/MLR.py:82-95 | as written, a Sunday window reaches the regression with is_sunday_True = 0; the corrected frame has 1 |
| Mlr.MultipleLinearRegression.constructor | data/prediction/methods/MLR.py:14-20 | empty model and scaler maps, the split data, horizon and lag count |
| Mlr.MultipleLinearRegression.AddLagFeatures | data/prediction/methods/MLR.py:22-26 | the loop's frame has lag_1 … lag_L assigned from the station's values shifted by k + P |
| Mlr.MultipleLinearRegression.FreshFitForecasts | data/prediction/methods/MLR.py:39-60 | a station fitted on training hours covering every weekday gets a scaler over the full feature layout (calendar, lags, then the declared indicators), so the corrected forecast with it succeeds on every non-empty series with P ≥ 1 unless lags ≥ 1 and 2 ≤ len(data) < P |
| Mlr.MultipleLinearRegression.FitArtefacts | data/prediction/methods/MLR.py:39-60 | builds the training features and fits the scaler, then the regression on the scaled rows |
| Mlr.MultipleLinearRegression.LoadStation | data/prediction/methods/MLR.py:35-37 | the station's saved model and scaler enter the dictionaries and nothing else changes |
| Mlr.MultipleLinearRegression.FitAndSaveStation | data/prediction/methods/MLR.py:38-66 | a fresh fit is kept and written to both files |
| Mlr.MultipleLinearRegression.TrainStation | data/prediction/methods/MLR.py:31-66 | a station gets its saved pair when both files exist, otherwise a fresh fit that is then saved |
| Mlr.MultipleLinearRegression.Train | data/prediction/methods/MLR.py:28-66 | every training station gets a model and scaler in column order; other stations' entries and files are unchanged |
| Mlr.MultipleLinearRegression.AddForecastLags | data/prediction/methods/MLR.py:84-89 | the lag loop fails exactly as the lag columns do and otherwise assigns lag_1 … lag_L |
| Mlr.MultipleLinearRegression.FillMissingFeatures | data/prediction/methods/MLR.py:93-95 | the filling loop adds a zero column at the end for each fitted name the frame lacks, as the fill specification states |
| Mlr.MultipleLinearRegression.Predict | data/prediction/methods/MLR.py:68-105 | an unknown station fails; otherwise the code's forecast (`ForecastAsWritten`) with that station's model and scaler |
| StationFeatures.KeptPositionsMembers | data/prediction/methods/XGBoost.py:43-44 | the rows left after dropping the interpolated indices are exactly the positions not dropped |
| StationFeatures.KeptPositionsIncreasing | data/prediction/methods/XGBoost.py:43-44 | the kept rows stay in their original order |
| StationFeatures.KeptValues | data/prediction/methods/XGBoost.py:43-44 | the station's values at the kept rows, in order |
| StationFeatures.CalendarRowOf | data/prediction/methods/XGBoost.py:47-53 | hour, weekday, day of month and month in range; the weekend and Sunday flags agree with the weekday; the station cluster is recorded |
| Estimators.ClusterMapAt | data/prediction/methods/XGBoost.py:31 | the j-th station is a key mapped to the j-th cluster label |
| Estimators.ClusterMapCoversStations | data/prediction/methods/XGBoost.py:31 | the station-to-cluster dict has exactly the stations as keys, each mapped to its own cluster label |
| XGBoostPredictor.TrainingRows | data/prediction/methods/XGBoost.py:39-58 | one row per kept row, with its calendar features and y_lag = the kept value P kept rows earlier, missing for the first P |
| XGBoostPredictor.TrainingLagIsOldEnough | data/prediction/methods/XGBoost.py:43-55 | a present training lag is at least P hours older than its row, even across dropped rows |
| XGBoostPredictor.TrainingRowsWithoutGaps | data/prediction/methods/XGBoost.py:43-55 | with nothing dropped, y_lag at row i is the value exactly P hours earlier |
| XGBoostPredictor.ForecastRows | data/prediction/methods/XGBoost.py:75-86 | one row per forecast hour with that hour's calendar features and the given lag |
| XGBoostPredictor.XgbForecast | data/prediction/methods/XGBoost.py:68-93 | an empty series fails; P = 0 or fewer than P values is a length mismatch; otherwise hour j of last+1 … last+P is the clipped prediction from its calendar row and the value P hours before it |
| XGBoostPredictor.ForecastLagIsHorizonEarlier | data/prediction/methods/XGBoost.py:84 | on an hourly history, the lag used at forecast hour j is observed exactly P hours before it |
| XGBoostPredictor.PredictByXGBoost.constructor | data/prediction/methods/XGBoost.py:15-22 | empty model and cluster maps with the split data, horizon and cluster count |
| XGBoostPredictor.PredictByXGBoost.TrainStation | data/prediction/methods/XGBoost.py:33-66 | the saved model when its file exists, otherwise a fresh fit that is then saved |
| XGBoostPredictor.PredictByXGBoost.ClusterStations | data/prediction/methods/XGBoost.py:27-31 | each training station is mapped to the KMeans label of its correlation row; models and files are unchanged |
| XGBoostPredictor.PredictByXGBoost.TrainStations | data/prediction/methods/XGBoost.py:33-66 | every training station gets its loaded or fitted model in column order; other entries unchanged |
| XGBoostPredictor.PredictByXGBoost.Train | data/prediction/methods/XGBoost.py:24-66 | clusters the stations, then keeps or fits every station's model |
| XGBoostPredictor.PredictByXGBoost.Predict | data/prediction/methods/XGBoost.py:68-93 | an unknown station fails; otherwise the forecast with its model and cluster |
| RandomForestPredictor.WindowInputs | data/prediction/methods/RandomForest.py:36-37 | max(n − tw − fw, 0) inputs, the i-th being s[i : i + tw] |
| RandomForestPredictor.WindowTargets | data/prediction/methods/RandomForest.py:36-38 | the i-th target is s[i + tw : i + tw + fw] |
| RandomForestPredictor.WindowsAreAdjacent | data/prediction/methods/RandomForest.py:36-38 | each input and its target are adjacent and together form s[i : i + tw + fw] |
| RandomForestPredictor.LastWindowIsSkipped | data/prediction/methods/RandomForest.py:36 | there are n − tw − fw windows, so the window ending at the last value is never built |
| RandomForestPredictor.BuildWindows | data/prediction/methods/RandomForest.py:34-40 | the append loop builds exactly the window inputs and targets |
| RandomForestPredictor.RfForecast | data/prediction/methods/RandomForest.py:55-74 | an empty series fails; a history shorter than the window (or a zero window) is refused; a model output of the wrong width is a length mismatch; otherwise the clipped output on the last tw values, over last+1 … last+P |
| RandomForestPredictor.RandomForestPredictor.constructor | data/prediction/methods/RandomForest.py:13-21 | empty model map with the split data, horizon and window length |
| RandomForestPredictor.RandomForestPredictor.FitModel | data/prediction/methods/RandomForest.py:33-49 | the fit of the station's window inputs and targets |
| RandomForestPredictor.RandomForestPredictor.TrainStation | data/prediction/methods/RandomForest.py:29-53 | the saved model when its file exists, otherwise a fresh fit that is then saved |
| RandomForestPredictor.RandomForestPredictor.Train | data/prediction/methods/RandomForest.py:23-53 | every training station gets its loaded or fitted model in column order; other entries unchanged |
| RandomForestPredictor.RandomForestPredictor.Predict | data/prediction/methods/RandomForest.py:55-74 | an unknown station fails; otherwise the window forecast with its model |
| LightGbm.LgbRowOf | data/prediction/methods/lightGBM.py:34-38 | hour, weekday, day of month and month in range; the weekend flag agrees with the weekday |
| LightGbm.WindowStarts | data/prediction/methods/lightGBM.py:56 | the k-th window starts at k·168 |
| LightGbm.WindowStartsExact | data/prediction/methods/lightGBM.py:56 | window k exists exactly when k·fw + ws + fw ≤ n |
| LightGbm.LastWindowLeavesOutRecentHours | data/prediction/methods/lightGBM.py:50-56 | the last (saved) window ends at least one week and less than two weeks before the end of the training data |
| LightGbm.LgbForecast | data/prediction/methods/lightGBM.py:91-106 | an empty series fails; P = 0 fails; otherwise hour j of last+1 … last+P is the clipped booster output on the scaled calendar row |
| LightGbm.PredictByLightGBM.constructor | data/prediction/methods/lightGBM.py:17-23 | no clusters yet, the split data and horizon, and the files on disk |
| LightGbm.PredictByLightGBM.FitWindows | data/prediction/methods/lightGBM.py:53-75 | one model and scaler per window start, each fitted on its 720-hour window |
| LightGbm.PredictByLightGBM.FitAndSaveStation | data/prediction/methods/lightGBM.py:47-79 | with no window it fails with no files written; otherwise the last window's model and scaler are written |
| LightGbm.PredictByLightGBM.SkipStep | data/prediction/methods/lightGBM.py:44-45 | a station whose two files exist is skipped and its files are kept |
| LightGbm.PredictByLightGBM.FitStep | data/prediction/methods/lightGBM.py:47-79 | a station missing a file gets the last window's pair written |
| LightGbm.PredictByLightGBM.TrainStep | data/prediction/methods/lightGBM.py:40-79 | one pass of the station loop keeps its progress invariant, or fails when there is no window and a file is missing |
| LightGbm.PredictByLightGBM.ProgressComplete | data/prediction/methods/lightGBM.py:40-79 | after the loop, every training station's files are the kept or fitted ones |
| LightGbm.PredictByLightGBM.TrainStations | data/prediction/methods/lightGBM.py:40-79 | with windows, every station missing a file gets one written; without, nothing is written and it fails exactly when some station lacks a file |
| LightGbm.PredictByLightGBM.Train | data/prediction/methods/lightGBM.py:25-79 | clusters the stations, then writes files as the station loop does |
| LightGbm.PredictByLightGBM.Predict | data/prediction/methods/lightGBM.py:81-106 | fails when either file is missing; otherwise the forecast from the saved model and scaler |
| RidgeAndRandomForest.TrainingRows | data/prediction/methods/ridge_and_rf.py:47-63 | one calendar row with cluster for each kept row, in order |
| RidgeAndRandomForest.ForecastRows | data/prediction/methods/ridge_and_rf.py:89-100 | one calendar row with cluster for each forecast hour |
| RidgeAndRandomForest.ForecastRowIsTrainingRow | data/prediction/methods/ridge_and_rf.py:55-63 | a forecast hour gets the same features as a training row at that timestamp |
| RidgeAndRandomForest.RidgeForecast | data/prediction/methods/ridge_and_rf.py:81-111 | an empty series fails; P = 0 fails; otherwise hour j of last+1 … last+P is the mean of the Ridge and forest predictions on its scaled row, unclipped |
| RidgeAndRandomForest.RidgeForecastRange | data/prediction/methods/ridge_and_rf.py:103-109 | the average lies in [0, 1] when both predictions do, above 1 when both are, below 0 when both are |
| RidgeAndRandomForest.PredictByRidgeAndRandomForest.constructor | data/prediction/methods/ridge_and_rf.py:16-24 | empty model, scaler and cluster maps with the split data and horizon |
| RidgeAndRandomForest.PredictByRidgeAndRandomForest.LoadStation | data/prediction/methods/ridge_and_rf.py:41-44 | the saved pair enters the dictionaries and nothing else changes |
| RidgeAndRandomForest.PredictByRidgeAndRandomForest.FitAndSaveStation | data/prediction/methods/ridge_and_rf.py:45-79 | a fresh fit is kept and written to both files |
| RidgeAndRandomForest.PredictByRidgeAndRandomForest.TrainStation | data/prediction/methods/ridge_and_rf.py:37-79 | the saved pair when both files exist, otherwise a fresh fit that is saved |
| RidgeAndRandomForest.PredictByRidgeAndRandomForest.TrainStep | data/prediction/methods/ridge_and_rf.py:37-79 | one pass of the station loop extends the overlay by one station |
| RidgeAndRandomForest.PredictByRidgeAndRandomForest.ClusterStations | data/prediction/methods/ridge_and_rf.py:29-35 | each training station is mapped to its KMeans label; models and files unchanged |
| RidgeAndRandomForest.PredictByRidgeAndRandomForest.TrainStations | data/prediction/methods/ridge_and_rf.py:37-79 | every training station gets its loaded or fitted pair in column order; other entries unchanged |
| RidgeAndRandomForest.PredictByRidgeAndRandomForest.Train | data/prediction/methods/ridge_and_rf.py:26-79 | clusters, then keeps or fits every station's pair |
| RidgeAndRandomForest.PredictByRidgeAndRandomForest.Predict | data/prediction/methods/ridge_and_rf.py:81-111 | an unknown station fails; otherwise the averaged forecast with its pair and cluster |
| XGBoostPca.PcaForecast | data/prediction/methods/XGBoostACP.py:42-57 | an empty series fails; a non-positive length fails; otherwise hour j of last … last+L−1 is the clipped prediction on the PCA of its date features |
| XGBoostPca.PcaForecastIgnoresValues | data/prediction/methods/XGBoostACP.py:50-51 | the forecast depends on the history only through its last timestamp |
| XGBoostPca.XGBoostPca.constructor | data/prediction/methods/XGBoostACP.py:13-17 | empty model map with the split data and component count |
| XGBoostPca.XGBoostPca.TrainStation | data/prediction/methods/XGBoostACP.py:22-40 | the saved pair when its file exists, otherwise a fresh fit that is saved |
| XGBoostPca.XGBoostPca.Train | data/prediction/methods/XGBoostACP.py:19-40 | every training station gets its loaded or fitted pair in column order; other entries unchanged |
| XGBoostPca.XGBoostPca.Predict | data/prediction/methods/XGBoostACP.py:42-57 | an unknown station fails; otherwise the PCA forecast |
| Data.PositionsBetweenMembers | data/data.py:25 | a row is selected exactly when its date lies in [start, end of the end day) |
| Data.PositionsBetweenIncreasing | data/data.py:25 | the selected rows keep their order |
| Data.DataBetweenDatesSelects | data/data.py:24-25 | keeps, in order, exactly the rows from the start date to the end of the end day, with all station columns |
| Data.EndDayIsIncluded | data/data.py:25 | every hour of the end day is kept and midnight after it is not |
| Data.Reorder | data/data.py:16 | rows, columns and cells are permuted by one order: cell (i, j) is the original cell (order[i], order[j]) |
| Data.ReorderKeepsSymmetry | data/data.py:12-16 | reordering rows and columns by one permutation keeps the matrix symmetric with matching labels |
| Data.UpperTriangleMask | data/data.py:19-20 | the mask is set exactly on and above the diagonal |
| Data.ApplyMask | data/data.py:22 | masked cells become missing and the others are kept |
| Data.CorrelationOnSelectedStations | data/data.py:9-22 | an unknown column fails; otherwise the (optionally reordered) correlation matrix with the diagonal and upper triangle missing |
| DistanceMatrix.SplitIntoBatches | data/distance_matrix.py:16-19 | a step of 0 fails and a negative step gives no batch |
| DistanceMatrix.BatchesFromConcat | data/distance_matrix.py:18-19 | the batches concatenate back to the elements |
| DistanceMatrix.BatchesFromAt | data/distance_matrix.py:18-19 | batch k starts at element k·t and holds up to t elements |
| DistanceMatrix.BatchesFromCount | data/distance_matrix.py:18 | batch k exists exactly when k·t is before the end |
| DistanceMatrix.BatchCount | data/distance_matrix.py:18 | there are ⌈n/t⌉ batches |
| DistanceMatrix.BatchBounds | data/distance_matrix.py:19 | every batch holds between 1 and t elements |
| DistanceMatrix.BatchesAreFull | data/distance_matrix.py:19 | every batch but the last holds exactly t elements |
| DistanceMatrix.SplitIntoBatchesShape | data/distance_matrix.py:16-19 | ⌈n/t⌉ batches, the k-th being elements[k·t : k·t + t], all non-empty, all full but the last, concatenating to the input |
| LoadKey.StripShape | data/load_key.py:7-8 | `strip()` removes exactly the leading and trailing whitespace and keeps the middle |
| LoadKey.SplitFirst | data/load_key.py:8 | `split('=', 1)` fails exactly without a separator, otherwise splits at the first one |
| LoadKey.StripStart | data/load_key.py:7 | removes exactly the leading whitespace |
| LoadKey.StripEnd | data/load_key.py:7 | removes exactly the trailing whitespace |
| LoadKey.ParseLine | data/load_key.py:7-9 | a blank line or one starting with '#' is skipped; no '=' is an error; an empty or null name is refused; otherwise the stripped line is name '=' value |
| LoadKey.ParseAssignment | data/load_key.py:7-9 | every well-formed line parses to its name and value |
| LoadKey.IndentedCommentIsAssigned | data/load_key.py:7 | "#KEY=x" is skipped but " #KEY=x" assigns "#KEY" |
| LoadKey.ValueKeepsLaterSeparators | data/load_key.py:8 | "A=b=c" assigns "b=c" to A |
| LoadKey.InnerSpacesStay | data/load_key.py:8 | "A = b" followed by a newline assigns " b" to "A " |
| LoadKey.LoadStopsAtFirstFailure | data/load_key.py:6-9 | loading stops at the first bad line, keeping the assignments before it |
| LoadKey.LoadSucceeds | data/load_key.py:6-9 | loading succeeds exactly when no line fails |
| LoadKey.LoadIsLastAssignment | data/load_key.py:6-9 | after loading, a variable holds its last assignment in the file, or its earlier value |
| LoadKey.Environ.LoadVariablesEnv | data/load_key.py:3-9 | the line loop leaves the environment and error that loading the file specifies |
| LoadKey.ApiKey | data/load_key.py:14 | `os.environ.get`: missing exactly when the key is unset |
| LoadKey.ApiKeyAfterLoad | data/load_key.py:11-14 | the API key is the file's last GOOGLE_MAPS_API_KEY assignment, or the earlier value |

## Left out

- File-system I/O (`joblib`, `os.path.exists`, `os.makedirs`, the LightGBM text format, and `open` of `variables.env` with its `FileNotFoundError` and decoding errors) is not modelled. Saved models are maps in each strategy object.
- The estimators themselves are not modelled: StandardScaler, LinearRegression, Ridge, RandomForestRegressor, XGBRegressor, LightGBM boosters, PCA and KMeans. Their fitted behaviour is an opaque function, and fitting is a function given to each constructor. So scikit-learn's `ValueError` on a fit with zero samples is not an error in the model: for example, a random forest on a station with n ≤ tw + fw, or a station whose every row is interpolated.
- StationFeatures.KeptPositions: an interpolated index outside the station's frame is ignored. pandas `drop` raises `KeyError` on such a label (`XGBoost.py` lines 43-44, `ridge_and_rf.py` line 52), so that error path is not modelled.
- `get_interpolated_indices` and `get_acp_predictor` are called from `data.data` but do not appear in that file, so they are not part of this model. The interpolation mask is a function parameter, and the PCA fit is a parameter of the PCA predictor.
- The Google Maps distance-matrix calls, the result matrix and its CSV output are not modelled: this is network I/O. Only the batching of the coordinates is modelled.
- Correlation coefficients, their rounding and the hierarchical clustering that produces the reorder are not modelled: they are floating-point numerics. The matrix and the permutation are inputs.
- Floating point in general: values are mathematical reals, and sklearn's weighted averages are exact sums and quotients.
- Time zones, daylight saving and irregular indexes are not modelled. Timestamps are whole hours, so the forecast index never skips or repeats an hour.
- `Mlr.MultipleLinearRegression.AddLagFeatures`: the Python method also writes the lag columns into the caller's frame, and applies `dropna()`, which changes nothing once the lags are filled. The model returns the new frame as a value and leaves out the aliasing.
- Missing values in a station's own column (NaN rates) are not modelled. Every observation is a real.
- Progress bars (`tqdm`), verbosity and the random seeds of the estimators are not modelled.
- The `uint8` casts in `create_features_from_date` are not modelled: every feature fits in a byte.
- Negative horizons for the strategies are not modelled: their horizon is a `nat`. The shared index helper takes any integer.
- The error kinds are names for the Python exceptions. With a zero horizon, several strategies report `NoSamples`, while pandas may raise the length error first. Both are `ValueError`s in Python.

## Findings

| source | as written | input that shows it | evidently intended | confidence | as-written member | corrected member |
|---|---|---|---|---|---|---|
| data/prediction/methods/MLR.py:91-99 | `get_dummies` on the forecast frame uses only the categories present in the forecast hours. The missing fitted columns are then appended at the end, so the columns leave the fitted order and the scaler refuses the frame. | lags = 3, P = 2, history of one value at Tuesday 22:00: `day_of_week_2` stands where `day_of_week_1` was fitted | indicators over all declared categories, in the fitted order, so the forecast is produced | not executed; depends on scikit-learn ≥ 1.2, which raises on reordered feature names | Mlr.TwoWeekdayWindowRefused | Mlr.ForecastSucceeds |
| data/prediction/methods/MLR.py:82-95 | A forecast window within one Sunday gets no indicator column from `get_dummies`. The filling loop sets `is_sunday_True` and `is_weekend_True` to 0, so a Sunday is encoded as a Monday. | P ≤ 24, history ending on a Saturday at 23:00 | `is_sunday_True` = 1 on Sunday hours | not executed | Mlr.SundayForecastAsMonday | Mlr.DeclaredDummiesMarkSundays |
