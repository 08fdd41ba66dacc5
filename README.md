# Survey estimation helpers, modelled in Dafny

The repository holds three small classes for a teaching exercise on wage data (`plata`, the monthly wage, and `obrazovanje`, years of education):

- `ONK` (`klase/ONK.py`) is an ordinary-least-squares helper. It:
  - normalises the significance levels;
  - builds dummy columns for categorical variables and adds a constant;
  - fits the model and grades every t-statistic with stars;
  - eliminates insignificant variables one at a time (`fitsig`);
  - predicts single values, means and totals;
  - prints the fitted equation.
- `Bootstrap` (`klase/.ipynb_checkpoints/Bootstrapping-checkpoint.py`) draws repeated samples of the wage column. It summarises the sample means and standard deviations, gives percentile intervals and their half-widths, and derives the sample size needed for a given precision.
- `PSU` and `SSU` (`klase/Sampling.py`) cover survey estimation:
  - `PSU` draws a simple random sample. It gives ratio and regression estimates of the mean and total wage, t-based confidence tables, and a search for the smallest bootstrap confidence level whose interval covers the sample mean.
  - `SSU` cuts the population into strata labelled by joining the values of some columns. It allocates the sample in proportion to the stratum sizes, draws within every stratum, and computes the stratified mean, the separate and combined ratio totals, and the stratified regression mean, each with its variance.

The model follows the source's own shape:

- The objects become classes whose methods update fields in place: `LeastSquares.Ols`, `Resampling.Bootstrap`, `Survey.Srs` and `StratifiedSurvey.StratifiedSample`.
- The numerical building blocks become pure functions with lemmas: sums, means, variances, quantiles, allocation, stratum layers, and the ratio and regression formulas.
- Loops in the source become methods with loop invariants:
  - dummy encoding (`EncodeCats`);
  - the first insignificant coefficient (`FirstInsignificant`);
  - the bootstrap rounds (`Resample`);
  - the confidence table (`ConfidenceTable`);
  - the grid scan of the minimal interval (`Scan`);
  - the per-stratum fits (`FitLayers`).

Everything the code obtains from a library is a parameter of the model:

| Library call in the source | In the model |
|---|---|
| `stats.t.ppf`, `stats.norm.ppf` | `tppf`, `zppf` |
| `np.sqrt` | `sqrt`, with `IsSqrt` stating what a square root is where a proof needs it |
| `np.linalg.inv` | the least-squares `fitter` |
| `df.sample` / `np.random` | the seed-keyed `draw` and `pick` |
| number formatting | `show` / `fmt` |

A floating-point `NaN` or `inf` result becomes the `NonFinite` fault. A Python exception becomes a `Failure` carrying the fault that names it.

## Model

| member | source | states |
|---|---|---|
| Levels.Normalise | klase/ONK.py:9-20 | The levels are rejected exactly when one supplied level lies outside [0, 1]. Otherwise the result is strictly ascending, contains every default level, and holds exactly the defaults plus the supplied levels. With no argument it is the defaults. |
| LeastSquares.Ols.Create | klase/ONK.py:5-22 | Construction fails exactly when level normalisation fails. Otherwise the new model holds the normalised levels and none of `x`, `b` and `t` is set. |
| LeastSquares.Ols.constructor | klase/ONK.py:21-22 | All seven fields `x, y, m, n, b, bstd, tstat` start unset. |
| LeastSquares.CriticalValues | klase/ONK.py:49 | There is one critical value per level, and it is the absolute value of `tppf(a/2, m-n)`. |
| LeastSquares.CriticalValuesHaveDefaults | klase/ONK.py:49 | Levels that include the defaults give critical values for 0.1, 0.05 and 0.01. |
| LeastSquares.Ols.Record | klase/ONK.py:45-49 | `fit` first stores copies of x and y, the shape `m, n`, and the critical values for `m-n` degrees of freedom. |
| LeastSquares.WithConst | klase/ONK.py:56-57 | A constant column is inserted first unless one is already present. A frame that has one is unchanged. |
| LeastSquares.PrepareWithoutList | klase/ONK.py:52-57 | Without a category list, a frame with a category column fails as not iterable. Either way the design gains the constant column. |
| LeastSquares.Indicator | klase/ONK.py:167 | A dummy cell is 1.0 exactly where the category equals that level, and 0.0 elsewhere. |
| LeastSquares.DummyColumns | klase/ONK.py:166-167 | There is one dummy column per non-reference level, named `kat_level`, holding that level's indicator. |
| LeastSquares.NonReferenceLevels | klase/ONK.py:166 | The non-reference levels are the distinct sorted values without the smallest, which is at most every cell. They are strictly ascending and one fewer than the distinct values. |
| LeastSquares.DummyCount | klase/ONK.py:166 | A category with k distinct values gets k-1 dummy columns. |
| LeastSquares.IndicatorsOneHot | klase/ONK.py:166-167 | At most one dummy is 1 in any row. All dummies are 0 exactly in rows holding the reference level. |
| LeastSquares.EncodeCategory | klase/ONK.py:165-168 | Encoding one category fails exactly when the column is missing. Otherwise the row count is unchanged. |
| LeastSquares.EncodeCategoryColumns | klase/ONK.py:166-168 | With distinct level names that do not clash with existing columns, encoding drops the category column and appends its dummies in level order. |
| LeastSquares.EncodeAllFault | klase/ONK.py:165-168 | Encoding a list stops at the first missing category and reports that category as the fault. |
| LeastSquares.EncodeOne | klase/ONK.py:166-168 | The loop over the levels adds each dummy in turn. Its result is the encoding of that category, and the frame stays well formed. |
| LeastSquares.EncodeCats | klase/ONK.py:162-170 | The loop over the category list gives the specified encoding of the whole list, a well-formed frame. |
| LeastSquares.Ols.Dummies | klase/ONK.py:147-170 | `vestacke` on the stored or a given frame stores the encoded frame as `x`. With neither frame set it fails as unset. |
| LeastSquares.Ols.Design | klase/ONK.py:52-59 | The design is the prepared frame, and `n` becomes its column count unless preparation failed. |
| LeastSquares.Ols.Estimate | klase/ONK.py:62-74 | Mismatched lengths fail as unaligned and a singular fit fails as singular. Otherwise b, bstd and tstat are labelled by the design's columns, and the table carries the stars of each t-statistic. Nothing is stored on failure. |
| LeastSquares.Ols.Fit | klase/ONK.py:25-74 | The whole `fit`: it records the input and prepares the design, then fails on category errors, unaligned y or a singular fit. Otherwise it returns and stores the labelled estimates with their stars. |
| LeastSquares.Stars | klase/ONK.py:70 | A star string is all '*', at most three long, and non-empty only when abs(t) exceeds the 10% critical value. |
| LeastSquares.StarsGraded | klase/ONK.py:70 | With ordered critical values, abs(t) gets 0 stars up to the 10% value, 1 below the 5% value, 2 below the 1% value, and 3 otherwise. |
| LeastSquares.StarsOf | klase/ONK.py:70 | There is one star string per t-statistic. |
| LeastSquares.FirstInsignificant | klase/ONK.py:91-94 | The scan returns the first coefficient that is neither a region nor the constant and whose abs(t) is below the critical value. No earlier coefficient qualifies. `None` means every coefficient is settled. |
| LeastSquares.Ols.DropColumn | klase/ONK.py:96-97 | Dropping an insignificant variable removes exactly that column and keeps the constant. The column count strictly decreases, which is why `fitsig` terminates. |
| LeastSquares.Ols.Refit | klase/ONK.py:90 | `fitsig`'s refit adds the constant and keeps y. On success the stored b, bstd and tstat are the fitter's estimates on that design, labelled by its columns, and the table carries their stars (`Fits`). A category-free, aligned refit whose fit is non-singular always succeeds. |
| LeastSquares.Ols.FitSig | klase/ONK.py:76-106 | It succeeds exactly when x and y are set and `Eliminates` holds: every refit along the elimination is possible and the last one keeps a significant region coefficient. On success x is the design `Backward` specifies, the stored estimates are the fitter's on it (`Fits`), and a region coefficient remains. When the old x already had the intercept, none of the eligible coefficients is insignificant at the chosen level. |
| LeastSquares.Ols.Eliminate | klase/ONK.py:91-99 | An unknown level fails. Otherwise it drops and refits until no eligible variable is insignificant, and it succeeds exactly when `Eliminates` holds of the design it started from. A success ends on the `Backward` design with the fitter's estimates on it and a region coefficient among them. |
| LeastSquares.Ols.DropInsignificant | klase/ONK.py:93-98 | The first insignificant eligible coefficient is dropped and `fitsig` restarts. It succeeds exactly when `Eliminates` holds of the design before the drop. A success ends on that design's `Backward` design with the fitter's estimates on it. |
| LeastSquares.Ols.Conclude | klase/ONK.py:100-106 | When all region coefficients are insignificant, the source's region branch names an unbound `x` and fails. When some is significant it always succeeds: it refits the unchanged design, which is the `Backward` design, and stores the fitter's estimates on it. |
| LeastSquares.FirstBelow | klase/ONK.py:93-94 | The position found is the first, from the start index, whose coefficient is eligible and whose absolute t-statistic is below the critical value. None means no such position exists. |
| LeastSquares.DropTarget | klase/ONK.py:90-97 | The coefficient `fitsig` drops is a column of the design, eligible and not the constant. |
| LeastSquares.CutIsCritical | klase/ONK.py:94 | The critical value `fitsig` compares with is the table entry for the level, and exists exactly when the level is in the table. |
| LeastSquares.Backward | klase/ONK.py:76-106 | The design that `fitsig` ends with: add the intercept, fit, drop the first eligible coefficient whose t-statistic is below the critical value in absolute value of the current width, and repeat until none is left. It is a specification with no contract of its own, and `BackwardDrops`, `BackwardStops` and `BackwardKeeps` state its properties. |
| LeastSquares.BackwardDrops | klase/ONK.py:93-98 | When a refit finds an eligible coefficient insignificant, the final design is the one reached from the design without it. |
| LeastSquares.BackwardStops | klase/ONK.py:100-106 | When a refit finds no eligible coefficient insignificant, the final design is the current design with the intercept. |
| LeastSquares.BackwardKeeps | klase/ONK.py:76-106 | Backward elimination keeps the intercept, every region column and the row count, and adds no column. |
| LeastSquares.GroupKept | klase/ONK.py:100 | A region coefficient in a set of labels survives into any set that keeps those labels. |
| LeastSquares.Ols.Predict | klase/ONK.py:138-145 | It predicts on the given frame or the stored `x`, and fails when neither frame or `b` is set. |
| LeastSquares.PredictOn | klase/ONK.py:139-145 | It fails when the columns do not match the coefficients' labels, or on the mean of an empty frame. Otherwise a row prediction is the dot product of the row with the aligned coefficients. |
| LeastSquares.PredictMeanAtColumnMeans | klase/ONK.py:139-141 | The mean prediction is the dot product of the column means with the coefficients. |
| LeastSquares.PredictTotalIsRowsTimesMean | klase/ONK.py:140-143 | The total prediction is the row count times the mean prediction. |
| LeastSquares.Ols.Equation | klase/ONK.py:108-118 | It fails when `b` or `y` is unset. Otherwise the text is `y = ` followed by the terms joined with ` + `. |
| LeastSquares.Terms | klase/ONK.py:112-116 | There is one formatted term per coefficient, in the coefficients' order. |
| LeastSquares.JoinLength | klase/ONK.py:117 | The joined equation's length is the terms' lengths plus one separator between each pair. |
| Resampling.DefaultSize | klase/.ipynb_checkpoints/Bootstrapping-checkpoint.py:30 | The default sample size is a tenth of the rows, rounded down. |
| Resampling.Bootstrap.constructor | klase/.ipynb_checkpoints/Bootstrapping-checkpoint.py:6-32 | It stores the frame, the levels and the size, and sets `N` to the row count. No means or deviations are set yet. |
| Resampling.Bootstrap.Create | klase/.ipynb_checkpoints/Bootstrapping-checkpoint.py:6-32 | Construction fails exactly when level normalisation fails, which repeats `ONK`'s rule. Otherwise the levels are the normalised ones, and the size is the given one or a tenth of the rows. |
| Resampling.Resample | klase/.ipynb_checkpoints/Bootstrapping-checkpoint.py:38-42 | The loop yields the mean and the deviation of each of the k drawn samples, in draw order. |
| Resampling.Bootstrap.Fit | klase/.ipynb_checkpoints/Bootstrapping-checkpoint.py:34-43 | A missing wage column, a negative size or a size above `N` fail and leave empty series. Otherwise the series hold the k sample means and deviations. |
| Resampling.SampleMeansWithin | klase/.ipynb_checkpoints/Bootstrapping-checkpoint.py:38-42 | Every bootstrap mean lies within the range of the column it was drawn from. |
| Resampling.Bootstrap.AverageMean | klase/.ipynb_checkpoints/Bootstrapping-checkpoint.py:45-48 | It fails when the means are unset. Otherwise it is the mean of the non-missing sample means. |
| Resampling.Bootstrap.AverageDev | klase/.ipynb_checkpoints/Bootstrapping-checkpoint.py:50-53 | It fails when the deviations are unset. Otherwise it is the mean of the non-missing deviations. |
| Resampling.SeriesMean | klase/.ipynb_checkpoints/Bootstrapping-checkpoint.py:45-53 | A series with no values gives `NaN`. Otherwise the result is the mean of its values. |
| Resampling.SeriesMeanBetween | klase/.ipynb_checkpoints/Bootstrapping-checkpoint.py:45-53 | The mean of values within [lo, hi] lies within [lo, hi]. |
| Resampling.LevelBounds | klase/.ipynb_checkpoints/Bootstrapping-checkpoint.py:60-66 | A level outside [0, 2] fails as a quantile out of range, and an empty series as `NaN`. Otherwise the bounds are the a/2 and 1-a/2 quantiles. |
| Resampling.LevelBoundsOrdered | klase/.ipynb_checkpoints/Bootstrapping-checkpoint.py:60-66 | For a level in [0, 1], lower <= upper, and both lie between the smallest and the largest sample value. |
| Resampling.IntervalRowsSucceed | klase/.ipynb_checkpoints/Bootstrapping-checkpoint.py:55-67 | The table succeeds exactly when there are no levels, or there are values and every level is in [0, 2]. It has one row per level, in order. |
| Resampling.Bootstrap.Interval | klase/.ipynb_checkpoints/Bootstrapping-checkpoint.py:55-67 | It tabulates the given series, or else the stored means, at the given levels or else the stored ones. It fails when neither series is set. |
| Resampling.HalfWidths | klase/.ipynb_checkpoints/Bootstrapping-checkpoint.py:69-73 | Each half-width is half the interval's width. |
| Resampling.HalfWidthsNonNegative | klase/.ipynb_checkpoints/Bootstrapping-checkpoint.py:69-73 | For levels in [0, 1] every half-width is non-negative. |
| Resampling.Bootstrap.HalfWidth | klase/.ipynb_checkpoints/Bootstrapping-checkpoint.py:69-73 | It fails when the means are unset. Otherwise it gives the half-widths of the interval table, or that table's fault. |
| Resampling.SizeFor | klase/.ipynb_checkpoints/Bootstrapping-checkpoint.py:104-110 | `N = 0` is a division by zero, and a missing precision or variance is `NaN`. A positive numerator gives an integer in [0, N). |
| Resampling.CorrectedSize | klase/.ipynb_checkpoints/Bootstrapping-checkpoint.py:108-110 | The finite-population correction n0/(1+n0/N), truncated, lies in [0, N). |
| Resampling.SizeRowFor | klase/.ipynb_checkpoints/Bootstrapping-checkpoint.py:100-116 | A size row uses the half-width at that level and `zppf(1-a/2)`. |
| Resampling.Bootstrap.SampleSize | klase/.ipynb_checkpoints/Bootstrapping-checkpoint.py:100-116 | With unset means it fails as unset. Otherwise there is one required sample size per level. |
| Survey.Setup | klase/Sampling.py:40-64 | `PSU` construction fails on an empty frame (`n/N`), a negative size, a size above `N` or a level outside [0, 1]. Otherwise it is the draw of the picked rows. |
| Survey.Draw | klase/Sampling.py:47-62 | The sample's rows are the picked rows. `X`/`x` are the design and its drawn rows, dummy-encoded when categories are given. `Y` is the wage column and `y` its drawn cells. |
| Survey.Designs | klase/Sampling.py:49-55 | Without categories the designs are the frame and its drawn rows. With categories they are both encodings, and an empty list leaves them `None`. |
| Survey.Srs.Create | klase/Sampling.py:40-64 | It fails exactly when setup fails. Otherwise the object holds the drawn sample and an `ONK` model with the normalised levels, and no bootstrap or squared errors are set yet. |
| Survey.Srs.constructor | klase/Sampling.py:40-64 | The fields hold the drawing and the given model, and `bs` is `None`. |
| Survey.Srs.EncodeDesigns | klase/Sampling.py:49-55 | Encoding through the model object gives the specified pair of designs. |
| Survey.RowAt | klase/Sampling.py:225-234 | A row is centred on the estimate with half-width t*sd, and its width is twice that. It marks the parameter as covered exactly when the parameter lies within the bounds. |
| Survey.Table | klase/Sampling.py:225-234 | There is one row per level, using that level's critical value. |
| Survey.ConfidenceTable | klase/Sampling.py:225-234 | The loop builds the specified table. |
| Survey.Srs.Intervals | klase/Sampling.py:212-243 | The table is for the given parameter, or by default the population mean. |
| Survey.RatioOf | klase/Sampling.py:97-117 | The ratio figures are `NaN` exactly when a total of education is 0 or the population has one row. Otherwise they satisfy the figure definitions. |
| Survey.Estimates | klase/Sampling.py:97-104 | The mean and total estimates are the ratio times the education mean and total. Each bias is the estimate minus the true value. The relative bias exists exactly when the mean wage is non-zero. |
| Survey.RatioTotals | klase/Sampling.py:97-104 | The total estimate and its bias are N times the mean estimate and its bias. |
| Survey.RatioVariances | klase/Sampling.py:114-117 | The total's variance is N² times the mean's. The ratio's variance times the squared education mean is the mean's. The mean's variance is non-negative. |
| Survey.RatioProportional | klase/Sampling.py:97-117 | When wage is c times education, both ratios are c, and both biases, the spread and the variance are zero. |
| Survey.Srs.RatioEstimate | klase/Sampling.py:86-128 | A missing auxiliary column fails and `NaN` figures fail. Otherwise the report holds the ratio figures, their roots and the table around the mean estimate. `SKGR` becomes bias² + sd². |
| Survey.RegressionOf | klase/Sampling.py:155-187 | The regression mean is the sample mean wage plus the prediction at the population means minus that at the sample means. Its bias is measured against the true mean. The expanded total is N times the sample mean prediction. |
| Survey.RegressionShift | klase/Sampling.py:155-159 | The regression mean equals ym plus the difference of the two mean predictions. |
| Survey.RegressionAtMatchingMeans | klase/Sampling.py:155-159 | When the sample's column means equal the population's, the regression mean is the sample mean. |
| Survey.ExpandedTotal | klase/Sampling.py:184-187 | Scaling the sample's predicted total by N/n gives N times the mean prediction. |
| Survey.RegressionDeviation | klase/Sampling.py:161-165 | It is `NaN` for fewer than two sampled wages or no correlations. Otherwise it is the mean of the shrunk deviations. |
| Survey.RegressionNoWorse | klase/Sampling.py:161-165 | With correlations in [-1, 1], the regression deviation is non-negative and at most the simple-random-sample deviation. |
| Survey.SquaredErrorOfRoot | klase/Sampling.py:128 | The squared error of an estimate with deviation sqrt(v) is bias² + v. |
| Survey.Srs.Align | klase/Sampling.py:139-150 | The population design is cut to the sample's columns. A missing column fails and leaves the design unchanged. |
| Survey.Srs.Finish | klase/Sampling.py:155-210 | The specified outcome of the regression estimate over two aligned designs: the regression figures of `RegressionFigures`, their `SKGLr`, and the report or its fault. It has no contract of its own. `FiguresNoWorse` bounds its deviation. |
| Survey.Srs.Closing | klase/Sampling.py:149-210 | `Finish` applied after the population design is cut to the kept sample columns (`Select`). It has no contract of its own. |
| Survey.Srs.Conclude | klase/Sampling.py:155-210 | Its effect is `Finish` over the two aligned designs. A `NaN` deviation fails. Otherwise `SKGLr` is stored and, without a ratio `SKGR`, the method fails as the source's read of it does. Otherwise the report holds the regression figures and their table. |
| Survey.Srs.RegressionEstimate | klase/Sampling.py:130-210 | The method fits the held model to the population design, which it replaces by the design with the intercept, then to the sample design. A category column or a singular fit fails first (`FitFault`). `fitsig` then prunes the sample design to the `Backward` design. A design is kept exactly when `FitFault` is none and `Eliminates` holds, and then `model.b` holds the fitter's coefficients on it. A design without a region column always fails. On success the sample design is the pruned one, and the population design, `SKGLr` and the outcome are those of `Closing`. |
| Survey.Srs.FitDesigns | klase/Sampling.py:139-141 | The fault is exactly `FitFault` of the two designs. The population design is replaced by the one with the intercept when its fit succeeds. When both succeed, the model holds the sample design with the intercept and the sample wages. |
| Survey.Srs.FitModel | klase/Sampling.py:139-141 | One `fit` with the intercept: the model holds the design with the intercept and the wages. It fails with the category fault or the singular fault, in that order, and otherwise succeeds. |
| Survey.Srs.FitSignificant | klase/Sampling.py:147 | `fitsig` succeeds exactly when `Eliminates` holds of the sample design with the intercept. It leaves the model on the `Backward` design, and on success `model.b` holds the fitter's coefficients on that design, labelled by its columns. A sample design without a region column fails. |
| Survey.Srs.Prune | klase/Sampling.py:147-210 | After both fits, the pruning and the rest of the estimate. A design is kept exactly when `Eliminates` holds, and then `model.b` holds the fitter's coefficients on it. Failure of `fitsig` leaves the designs and `SKGLr` unchanged, and success is `Closing` over the pruned design. |
| Survey.Srs.Reduce | klase/Sampling.py:149-210 | The sample design becomes the pruned one, and the population design, `SKGLr` and the outcome are those of `Closing`. |
| Survey.SampleCorrelations | klase/Sampling.py:161 | There is at most one correlation per column, and each lies in [-1, 1]. |
| Survey.CorrelationsDefined | klase/Sampling.py:161-163 | Some correlation exists exactly when the wages vary and so does some column of the design. |
| Survey.FitFault | klase/Sampling.py:139-141 | There is no fault exactly when both designs fit. A fault is the category fault or the singular fault. |
| Survey.RegressionFigures | klase/Sampling.py:155-163 | The figures fail exactly when the deviation built from the sample correlations is `NaN`, and the deviation reported is that one. |
| Survey.FiguresNoWorse | klase/Sampling.py:161-163 | The regression estimate's standard error is at most that of the plain sample mean. |
| Survey.GridShape | klase/Sampling.py:262 | The grid runs from 1.0 down to 0.001 and is strictly decreasing within (0, 1]. |
| Survey.FirstCoverIsLargest | klase/Sampling.py:267-275 | The first grid level whose interval covers the target is the largest one that does, so no larger level covers it. |
| Survey.Srs.Scan | klase/Sampling.py:267-275 | The scan returns the first covering grid index, or none when no grid level covers. A non-series fails. |
| Survey.Probe | klase/Sampling.py:268-271 | One probe succeeds on a series and tells whether that grid level covers. |
| Survey.Srs.Adopt | klase/Sampling.py:272-274 | A new level is appended and the levels re-sorted, and a known level is kept as is. |
| Survey.Srs.Prepare | klase/Sampling.py:264-266 | The bootstrap is built once, with the normalised levels, and fitted with seed 42. An existing one is reused. |
| Survey.Srs.MinimalInterval | klase/Sampling.py:257-277 | The result is 1 minus the first covering grid level, which is then adopted, or none when no level covers. It fails exactly when the bootstrap holds no series. |
| Survey.LevelsAccepted | klase/Sampling.py:49 | The levels passed on to `ONK` are rejected exactly when one lies outside [0, 1]. |
| Allocation.Labels | klase/Sampling.py:306 | It fails on the first missing stratum column. Otherwise each row's label is its shown values joined with `_`. |
| Allocation.LabelsFault | klase/Sampling.py:306 | Labelling fails exactly when some stratum column is missing, and reports the first missing one. |
| Allocation.SplitJoin | klase/Sampling.py:306 | Splitting a `_`-joined label recovers the parts when no part contains `_`. |
| Allocation.SameLabel | klase/Sampling.py:306 | Two rows get the same label exactly when their shown values agree. |
| Allocation.Distinct | klase/Sampling.py:308 | The strata are listed without repeats and every row's label is among them. |
| Allocation.DistinctFromLabels | klase/Sampling.py:308 | Every listed stratum is some row's label. |
| Allocation.SizesAddUp | klase/Sampling.py:308 | The stratum sizes add up to N. |
| Allocation.SharesAddUp | klase/Sampling.py:308 | The normalised stratum shares add up to 1. |
| Allocation.RoundHalfEven | klase/Sampling.py:309 | Rounding moves a value by at most one half. |
| Allocation.HalvesToEven | klase/Sampling.py:309 | Exact halves round to the even neighbour. |
| Allocation.Allocation | klase/Sampling.py:309 | There is one rounded share round(n·Nh/N) per stratum. With n <= N each lies between 0 and its stratum's size. |
| Allocation.AllocationTotal | klase/Sampling.py:309 | The allocated sizes add up to n within half a unit per stratum. |
| Allocation.Chosen | klase/Sampling.py:311 | A stratum's draw picks the requested number of that stratum's rows through the seeded picker. |
| Allocation.Stratified | klase/Sampling.py:311-312 | Every row of the concatenated draw is a row of the population that lies in one of the listed strata. |
| Allocation.GroupsOfDraw | klase/Sampling.py:311-312 | The concatenated sample's rows in stratum h are exactly that stratum's own draw. |
| Allocation.DrawShape | klase/Sampling.py:311-312 | The stratified sample has as many rows as were allocated, and no row twice. |
| Allocation.FitsWithinPopulation | klase/Sampling.py:309-312 | Allocations within the stratum sizes total at most N. |
| StratifiedSurvey.Begin | klase/Sampling.py:289-328 | `SSU` construction fails as `PSU`'s does, then on a missing stratum column, then on a missing education column. Otherwise the labels, allocation and rows are those specified, and the sample size is n within half a unit per stratum. |
| StratifiedSurvey.DrawHolds | klase/Sampling.py:311-323 | The drawn rows have no repeats and number at most N. Each stratum receives exactly its allocation. |
| StratifiedSurvey.DraftLayers | klase/Sampling.py:323-328 | Every stratum of the draft has population rows, paired columns, and a sample no larger than its population, of the allocated size. |
| StratifiedSurvey.StratifiedSample.constructor | klase/Sampling.py:313-328 | The fields are the draft's columns and layers. `ybarSt`, `rho` and `SKGRs` are unset. |
| StratifiedSurvey.StratifiedSample.Create | klase/Sampling.py:289-328 | It fails exactly when `Begin` fails. Otherwise it holds that draft. |
| Strata.Layers | klase/Sampling.py:323-328 | Each stratum's layer holds its population and sample wages and education, in row order. |
| Strata.StratifiedMean | klase/Sampling.py:338 | `ybarSt = Nh @ ybarh / N` equals the weighted sum `Wh @ ybarh` of the sample means. |
| Strata.SizesTimesMeans | klase/Sampling.py:338 | With each sample mean equal to its stratum's mean, Nh times that mean totals the wages. |
| Strata.TotalsAddUp | klase/Sampling.py:319 | The strata's wage totals add up to the population total. |
| Strata.StratifiedMeanExact | klase/Sampling.py:338 | When every stratum's sample mean is its population mean, `ybarSt` is the population mean. |
| Strata.StratifiedVariance | klase/Sampling.py:340 | The corrected variance (1-f)/n·ΣWh·S2h is non-negative whenever n <= N. |
| Strata.ProportionalVariance | klase/Sampling.py:340 | Under proportional allocation, (1-f)/n·ΣWh·S2h equals the textbook ΣWh²(1-fh)S2h/nh. |
| Strata.VarianceAsWritten | klase/Sampling.py:340 | The formula as written, divided by N, is n/N times the corrected variance, so it understates it whenever n < N. |
| Strata.AsWrittenUnderstates | klase/Sampling.py:340 | A one-stratum input where the formula as written gives 0.25 but the corrected and textbook formulas give 0.5. |
| StratifiedSurvey.StratifiedSample.Describe | klase/Sampling.py:330-348 | An empty stratum sample fails. Otherwise `ybarSt` is stored. Too few sampled rows per stratum give `NaN`. Otherwise the mean and total tables use the stratified mean and the square root of the corrected variance. |
| StrataRatio.SwappedLayers | klase/Sampling.py:356-358 | Swapping wage and education in every layer gives the layers of the swapped columns. |
| StrataRatio.SeparateTotal | klase/Sampling.py:363 | `YtotalRs = (yh / xh) @ Xh`. When every sample ratio equals its population ratio, it is the sum of the strata's wage totals. |
| StrataRatio.SeparateTotalOfPopulation | klase/Sampling.py:363 | In that case the separate total is the population's wage total. |
| StrataRatio.SeparateProportional | klase/Sampling.py:363 | When wages are c times education, the separate total is c times the strata's education total. |
| StrataRatio.LayersProportional | klase/Sampling.py:356-358 | A population whose wages are c times its education gives layers with the same relation. |
| StrataRatio.CorrelationsBounded | klase/Sampling.py:359 | Every defined stratum correlation lies in [-1, 1]. |
| StrataRatio.SeparateVariance | klase/Sampling.py:364-365 | The separate estimate's variance is non-negative when 0 < n <= N, `sqrt` is a square root and every correlation lies in [-1, 1]. |
| StrataRatio.CombinedTotal | klase/Sampling.py:381-382 | `YtotalRc = ybarSt / xbarSt · Xtotal`, defined only for a non-zero education mean. `CombinedTotalExact`, `CombinedOfMeans` and `CombinedProportional` state its properties. |
| StrataRatio.CombinedTotalExact | klase/Sampling.py:380-383 | When the sample means of wage and education match the strata's, the combined total is the population's wage total. |
| StrataRatio.CombinedOfMeans | klase/Sampling.py:380-383 | Stratified means y/N and x/N give a combined total of y. |
| StrataRatio.StratifiedMeanProportional | klase/Sampling.py:380-381 | When wages are c times education, `ybarSt` is c times the education analogue. |
| StrataRatio.CombinedProportional | klase/Sampling.py:380-383 | When wages are c times education, the combined total is c times the education total. |
| StratifiedSurvey.StratifiedSample.RatioEstimate | klase/Sampling.py:350-388 | `rho` is stored. It fails without stratum samples, without `ybarSt`, or on `NaN` figures. Otherwise the outcome is `SeparateOutcome`: the separate variance is not negative, `SKGRs` is bias² + sd² of the separate mean, a zero education mean gives `NaN`, and otherwise the report holds the separate and combined totals and their tables. |
| Pearson.CorrelationBounded | klase/Sampling.py:359 | Pearson's correlation, when defined, lies in [-1, 1]. |
| Pearson.Correlation | klase/Sampling.py:359 | The correlation is undefined for no data, and otherwise exactly when one of the two series has zero sum of squared deviations. |
| Pearson.DivisorZero | klase/Sampling.py:359 | The divisor of the correlation is zero exactly when one of the two series has no spread. |
| Pearson.FlatUncorrelated | klase/Sampling.py:359 | A constant series has no defined correlation. |
| StratifiedSurvey.Slope | klase/Sampling.py:404-411 | A stratum's slope is the fitter's coefficient of education after the constant, or a singular-fit failure. |
| StratifiedSurvey.Fitted | klase/Sampling.py:404-411 | Each stratum gets its slope, or 0.0 when its sample is empty. |
| StratifiedSurvey.FitStratum | klase/Sampling.py:405-409 | Fitting a stratum through a fresh `ONK` object gives its slope. |
| StratifiedSurvey.FitLayers | klase/Sampling.py:404-411 | The loop gives every stratum's slope, or the first failure. |
| StrataRegression.RegressionMean | klase/Sampling.py:424 | `ybarlrs = Wh @ ybarlrh` is `ybarSt` plus the weighted slope corrections Wh·bh·(Xbarh - xbarh). |
| StrataRegression.RegressionMeanAtBalance | klase/Sampling.py:415-424 | When each stratum's sample education mean is its population mean, the regression mean is `ybarSt`. |
| StrataRegression.RegressionVariance | klase/Sampling.py:425 | With no stratum sampled beyond its size and every correlation in [-1, 1], the regression variance lies between 0 and the textbook stratified variance. |
| StratifiedSurvey.StratifiedSample.RegressionEstimate | klase/Sampling.py:391-430 | Failures come in the source's order. First a stratum fit fails. Then, with no stratum sampled, the slope table has no `obrazovanje` column. With some strata unsampled, the estimates and the stratum means do not line up. Then a missing `rho`, a missing `SKGRs` and `NaN` figures fail. Otherwise the report holds the slopes, per-stratum means, regression mean and its deviation, which is at most the textbook one. It changes nothing. |
| Outcomes.Collect | klase/Sampling.py:404-411 | Collecting succeeds exactly when every item does, keeping their values. A failure is the first failing item's. |
| Outcomes.FirstFailure | klase/Sampling.py:404-411 | The first failing item decides the collected failure. |
| Frames.Drop | klase/ONK.py:96 | Dropping fails exactly when the label is missing. Otherwise it removes every column with that label and keeps the rest, so there is at least one column fewer, and a well-formed frame stays well-formed. |
| Frames.Select | klase/Sampling.py:139-150 | Selecting fails exactly when a requested column is missing. Otherwise it gives the requested columns in the requested order. |
| Frames.SumRowDots | klase/ONK.py:139-143 | The sum of row predictions is the column sums dotted with the coefficients. |
| Frames.MeanRowDots | klase/ONK.py:139-141 | The mean of row predictions is the column means dotted with the coefficients. |
| Stats.QuantileMonotone | klase/.ipynb_checkpoints/Bootstrapping-checkpoint.py:60-66 | Linear-interpolation quantiles are monotone in q. |
| Stats.QuantileWithinRange | klase/.ipynb_checkpoints/Bootstrapping-checkpoint.py:60-66 | A quantile lies between the series' minimum and maximum. |

## Left out

- The order of strata: `value_counts` orders them by size, while the model lists them by first appearance. The estimates are sums over strata and do not depend on that order.
- Floating point: reals are exact. A `NaN` or infinite pandas result is the `NonFinite` fault.
- `np.linalg.inv`, `stats.t.ppf`, `stats.norm.ppf`, `np.sqrt` and `df.sample` are parameters. Where a property needs more, `IsSqrt` states what a square root is and `Picks` states what sampling without replacement is. Their numerical algorithms are not part of this model.
- Printing, plotting and display: `describe` of `PSU`, `pregled` of `ONK`, the Jarque–Bera test, the plot and the formatted tables of every class. Formatting is the `show`/`fmt` parameter.
- `SSU` inherits `PSU`'s methods. The model keeps them apart, so `StratifiedSample` has no `RatioEstimate` of the simple design.
- The added `Strata` column of the frame is not stored. The labels are kept beside the frame.
- StratifiedSurvey.StratifiedSample.RatioEstimate: in the source `SKGRs` is assigned even when its figures are `NaN`. The model reports `NonFinite` and leaves it unchanged.
- StratifiedSurvey.StratifiedSample.Describe: uses the corrected variance (1-f)/n·ΣWh·S2h, as recorded under Findings.
- StratifiedSurvey.Fitted: a stratum with no sampled rows has no group in the source's loop, so it has no slope. The model gives it the placeholder slope 0.0. `RegressionEstimate` never reports the placeholder. With no stratum sampled it fails on the missing `obrazovanje` column (line 417). With some strata unsampled it fails as unaligned, as the source's mismatch between the lengths of `ybarlrh` and `ybarh` does (line 421).
- LeastSquares.Ols.Conclude: the branch that drops region dummies refers to an unbound `x` in the source and would raise. The model returns `Failure(UnboundName("x"))` and does not model what the branch evidently meant.
- The mutable default argument `alfa=[0.1, 0.05, 0.01]` is shared between `PSU` objects in the source. The model gives each object its own copy, so one object adopting a level does not change another's defaults.
- Row labels of frames and series: a row is its position. The population frame, the sample, and the `x` and `y` of a fit always come from one uniquely indexed frame (klase/ONK.py:62, klase/Sampling.py:52, 55), so pandas' alignment by label pairs the same rows that the positions do. The model reduces an alignment to a check of lengths. A frame with repeated or foreign labels is not modelled.
- `matOblik` of `ONK` only prints the fitted equation. The estimate leaves it out.
- Resampling.SizeFor: at level 0, `stats.norm.ppf(1)` is infinite, so `n0` is infinite and the source's size is exactly N (klase/.ipynb_checkpoints/Bootstrapping-checkpoint.py:108-111). The model's `z` is a finite real, so it never produces that case and its sizes stay below N.
- Survey.Draw and Allocation.Stratified: a negative seed makes `df.sample` raise `ValueError` (klase/Sampling.py:47, 311). The model's `pick`/`draw` parameters are total, so that error is not modelled.

## Findings

| source | as written | input that shows it | evidently intended | confidence | as-written member | corrected member |
|---|---|---|---|---|---|---|
| klase/Sampling.py:340 | The stratified mean's variance is `(1-f)/N · Σ Wh·S2h`, divided by the population size N. | One stratum, N = 4, n = 2, wages 0, 2, 0, 2 with sample 0, 2: the formula as written gives 0.25 but the corrected formula gives 0.5, which is also the textbook Σ Wh²(1-fh)·S2h/nh. | `(1-f)/n · Σ Wh·S2h`, divided by the sample size n, which under proportional allocation equals the textbook Σ Wh²(1-fh)·S2h/nh. | not executed | Strata.AsWrittenUnderstates | Strata.ProportionalVariance |
