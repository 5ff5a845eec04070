# damping-dolphin, modelled in Dafny

damping-dolphin is a desktop tool for designing frequency-dependent damping curves. A curve
ζ(ω) is the sum of damping *modes*. Each mode has one of five closed forms (Type 0 to Type 4),
a peak frequency ωp, a peak damping ratio ζp and a few shape parameters. The user places
control points (ω, ζ), and the tool fits a sum of modes of one *scheme* to them:

- Zero Day: Type 0 modes;
- Unicorn: Type 1 modes with a fractional order;
- Two Cities: Type 2 modes with two orders;
- Three Wise Men: Type 3 modes with a shape factor γ.

The fit is a least-squares problem on raw, unbounded parameters. A sigmoid
reparameterisation `s` maps each raw block to a mode, so that the frequency lies inside the
sampled band, the damping ratio is below the largest sample and the order is below the max
order. `ds` is the slope of `s`, used by the chain rule. Orders that are not whole numbers
pay the penalty weight · decimal(n)².

The project models:

- **The five mode shapes** and their tidy-up rounding (module `DampingModes`).
- **The display curve** (`DampingCurves`): the modes it holds, the linear and logarithmic
  frequency grids, the per-mode and summed damping vectors, the queries, and the
  control-point list.
- **The four schemes' closed forms** (`ZeroDay`, `Unicorn`, `TwoCities`, `ThreeWiseMen`): the
  response, its analytic gradient, `s`, `ds` and the order constraints.
- **The shared reparameterisation** (`Reparam`) and the dispatch over schemes (`Family`).
- **The objective** (`ObjectiveSpec` and `Objective`): what loss and gradient the objective
  promises, and the class that evaluates them over the whole sampling or over a batch. The
  class keeps a response cache, shuffles the samples and lays out its settings.
- **How a fit drives an optimizer** (`OptimizerTuning`): which knobs each optimizer kind
  honours, the cancellation callback, and the decoding of the optimised vector into modes.
- **The main window's handling of modes and fits** (`MainWindowModel`): adding a mode from the
  panel or from a text line, removing the selected rows, the scheme check, the fit guard,
  the samples a fit uses, the setting it passes on, and the axis ranges of the control-point
  plot.
- **The settings dialog's input rules** (`FitSettingModel`).
- **Parts of the bundled ensmallen library**: the Delta-Bar-Delta and momentum
  Delta-Bar-Delta update rules (`DeltaBarDelta`, `MomentumDeltaBarDelta`), and the L1-ball
  and L0-ball projections of the Frank-Wolfe proximal helper (`Proximal`).

Transcendental functions (exp, ln, log10, pow) are values of type `RealMath.Elementary`. The
predicate `RealMath.Sound` states the laws the proofs use. Numbers are exact reals: the model
has no rounding error, overflow, infinity or NaN. wrappers.dfy holds the `Option` type.

## Model

| member | source | states |
|---|---|---|
| RealMath.Round | src/Scheme/Unicorn.cpp:21-23 | arma::round gives an integer within 0.5 of its argument, with the argument's sign |
| RealMath.Decimal | src/Scheme/Unicorn.cpp:21-23 | n − round(n) lies in [−0.5, 0.5] |
| RealMath.DecimalZeroIffInteger | src/Scheme/TwoCities.cpp:4-6 | decimal(n) is zero exactly when n is a whole number |
| RealMath.RoundOfInteger | src/DampingMode.cpp:40 | rounding a whole number gives it back, so a tidied order stays put |
| RealMath.Trunc | src/DampingMode.cpp:33 | truncation toward zero: \|r\| ≤ \|x\| < \|r\| + 1, and r ≥ 0 for x ≥ 0, which is unsigned(x) for every x > −1 |
| RealMath.MinOf | src/DampingCurve.cpp:107-109 | the smallest entry of a non-empty list (std::min_element, and arma::min at src/Scheme/ObjectiveFunction.cpp:13): an entry of it no larger than any entry |
| RealMath.MaxOf | src/DampingCurve.cpp:111-113 | the largest entry of a non-empty list (std::max_element, and arma::max at src/Scheme/ObjectiveFunction.cpp:14): an entry of it no smaller than any entry |
| RealMath.Sign | include/ensmallen_bits/delta_bar_delta/update_policies/delta_bar_delta_update.hpp:151 | arma::sign is −1, 0 or 1, and is 1 exactly for positive and −1 exactly for negative entries |
| RealMath.SignOfProduct | include/ensmallen_bits/delta_bar_delta/update_policies/delta_bar_delta_update.hpp:151 | the sign of delta·deltaBar is the product of the two signs |
| RealMath.ClampBelow | include/ensmallen_bits/delta_bar_delta/update_policies/delta_bar_delta_update.hpp:155 | clamp(lo, inf) yields a value at least lo and at least its argument, and equal to one of them |
| RealMath.CoshLog | src/Scheme/ThreeWiseMen.cpp:21-31 | cosh(log(x/w)) is at least 1, and equals 1 exactly at x = w |
| RealMath.CoshLn | src/DampingMode.cpp:11-15 | cosh(ln r) is at least 1, with equality exactly at r = 1 |
| RealMath.SinhLn | src/Scheme/Unicorn.cpp:37-54 | sinh(ln r) is zero exactly at r = 1 and positive exactly above it |
| RealMath.SinhLog | src/Scheme/Unicorn.cpp:50 | sinh(log(x/w)) is zero exactly at x = w |
| RealMath.CoshSinhIdentity | src/Scheme/Unicorn.cpp:37-54 | cosh² − sinh² = 1 for the two closed forms |
| RealMath.Zeros | src/Scheme/Unicorn.cpp:129 | zeros(size(x)) has the given length and every entry 0 |
| RealMath.Spike | src/Scheme/Unicorn.cpp:129-130 | a zero vector with the value v at slot k only |
| Reparam.Logistic | src/Scheme/ZeroDay.cpp:33 | 1/(1 + exp(−p)) lies strictly between 0 and 1 |
| Reparam.Squash | src/Scheme/ZeroDay.cpp:33 | scale/(1 + exp(−p)) lies in (0, scale) for a positive scale and is 0 for a zero scale |
| Reparam.SquashMonotone | src/Scheme/ZeroDay.cpp:33 | the squashed value grows strictly with the raw value |
| Reparam.SquashSlope | src/Scheme/ZeroDay.cpp:45 | scale·exp(−\|p\|)·(1 + exp(−\|p\|))⁻² equals scale·σ(1 − σ) of the squash and lies in (0, scale/4] |
| Reparam.SlopeIsLogisticProduct | src/Scheme/ZeroDay.cpp:45 | the exp(−\|p\|) form of the slope is σ(p)·(1 − σ(p)) for either sign of p |
| Reparam.SquashSlopeEven | src/Scheme/ZeroDay.cpp:45 | the slope is the same at p and −p |
| Reparam.Frequency | src/Scheme/ZeroDay.cpp:32 | pow(10, min_omega + range_omega·σ(p)) is positive, and for a positive range strictly inside (10^min_omega, 10^(min_omega + range_omega)) |
| Reparam.FrequencySlope | src/Scheme/ZeroDay.cpp:44 | the slope of the frequency is positive for a positive range |
| Reparam.Slice | src/Scheme/ZeroDay.cpp:58 | the raw block of mode J is slots num_para·J … num_para·J + num_para − 1 of x |
| Reparam.AllBlocksFit | src/Scheme/ZeroDay.cpp:57-58 | every mode's block lies inside a vector of num_para·num_modes slots |
| Reparam.SlotOf | src/Scheme/ZeroDay.cpp:64 | slot num_para·J + k belongs to mode J at offset k |
| Reparam.BlockOf | src/Scheme/ZeroDay.cpp:64 | every row of dg belongs to exactly one mode's block, which fits in the vector |
| Reparam.PenaltyTerm | src/Scheme/Unicorn.cpp:116-122 | weight·decimal(n)² is non-negative for a non-negative weight, and zero exactly for a whole n when the weight is positive |
| Reparam.PenaltySlope | src/Scheme/Unicorn.cpp:124-131 | 2·weight·decimal(n)·dn vanishes exactly for a whole n when weight and dn are positive |
| ZeroDay.Shape | src/Scheme/ZeroDay.cpp:4-11 | 2·wr/(1 + wr²) is at most 1 in magnitude and 1 at wr = 1 |
| ZeroDay.Response | src/Scheme/ZeroDay.cpp:4-11 | the response never exceeds \|z\| in magnitude and equals z at x = w |
| ZeroDay.ResponseLinearInPeak | src/Scheme/ZeroDay.cpp:4-11 | the response is z times the unit-height response |
| ZeroDay.Gradient | src/Scheme/ZeroDay.cpp:13-27 | compute_gradient returns num_para + 1 entries |
| ZeroDay.GradientResponse | src/Scheme/ZeroDay.cpp:22-23 | out(0) is the response and out(2) the response at unit height, that is ∂/∂z |
| ZeroDay.GradientFrequencySlot | src/Scheme/ZeroDay.cpp:24 | out(1) is ∂response/∂w by the quotient rule, z·2x(x² − w²)/(x² + w²)² |
| ZeroDay.GradientAtCorner | src/Scheme/ZeroDay.cpp:13-27 | at x = w the response is z and its slope in w is zero |
| ZeroDay.S | src/Scheme/ZeroDay.cpp:29-36 | s gives an admissible mode; for positive bounds the frequency is inside the sampled band and the damping ratio in (0, max_zeta) |
| ZeroDay.DS | src/Scheme/ZeroDay.cpp:38-48 | ds(0) is ln 10 · frequency · slope of the squash and is positive; ds(1) is the squash slope in (0, max_zeta/4] |
| Unicorn.Bell | src/Scheme/Unicorn.cpp:25-35 | cosh(ln(x/w))^(−2n−1) is positive and 1 at x = w |
| Unicorn.Response | src/Scheme/Unicorn.cpp:25-35 | response equals z at x = w, is positive for positive z and zero for zero z |
| Unicorn.Gradient | src/Scheme/Unicorn.cpp:37-54 | compute_gradient returns num_para + 1 entries |
| Unicorn.GradientResponse | src/Scheme/Unicorn.cpp:37-54 | out(0) is the response and out(2) the unit-height response |
| Unicorn.GradientAtCorner | src/Scheme/Unicorn.cpp:37-54 | at x = w: out(0) = z and the slopes in w and n vanish |
| Unicorn.S | src/Scheme/Unicorn.cpp:56-64 | s gives an admissible mode; for positive bounds the frequency is in band, the damping ratio in (0, max_zeta) and the order in (0, max_order); the order is non-negative for a non-negative max order |
| Unicorn.DS | src/Scheme/Unicorn.cpp:66-79 | ds entries are the chain-rule slopes of s; for a positive max order the order slope lies in (0, max_order/4] |
| Unicorn.EvaluateConstraint | src/Scheme/Unicorn.cpp:116-122 | weight·decimal(n_i)² is non-negative, and with a positive weight zero exactly when mode i's order is whole |
| Unicorn.OrderPenaltySlope | src/Scheme/Unicorn.cpp:130 | for a positive weight and max order the order slope vanishes exactly for a whole order |
| Unicorn.GradientConstraint | src/Scheme/Unicorn.cpp:124-131 | the constraint gradient is zero everywhere except slot num_para·i + 2, which holds the order slope |
| TwoCities.Ratio | src/Scheme/TwoCities.cpp:8-20 | (2nl + 1)/(2nr + 1) is positive for non-negative orders |
| TwoCities.Denominator | src/Scheme/TwoCities.cpp:8-20 | the denominator 1 + r·pow(x/w, 2nps) exceeds 1, so the response is always defined |
| TwoCities.Response | src/Scheme/TwoCities.cpp:8-20 | response equals z at x = w, is positive for positive z and zero for zero z |
| TwoCities.Gradient | src/Scheme/TwoCities.cpp:22-58 | compute_gradient returns num_para + 1 entries |
| TwoCities.GradientResponse | src/Scheme/TwoCities.cpp:22-58 | out(0) is the response and out(2) the unit-height response |
| TwoCities.RightTermsAtCorner | src/Scheme/TwoCities.cpp:22-58 | at x = w the two right-hand terms of the quotient are equal |
| TwoCities.QuotientEntryVanishes | src/Scheme/TwoCities.cpp:22-58 | a quotient-rule entry whose two terms agree is zero |
| TwoCities.GradientAtCorner | src/Scheme/TwoCities.cpp:22-58 | at x = w: out(0) = z and the slopes in w, nr and nl vanish |
| TwoCities.S | src/Scheme/TwoCities.cpp:60-69 | s gives a positive frequency in band, a damping ratio in (0, max_zeta) and both orders in (0, max_order); the mode is admissible for a non-negative max order |
| TwoCities.DS | src/Scheme/TwoCities.cpp:71-87 | ds entries are the chain-rule slopes of s; both order slopes lie in (0, max_order/4] |
| TwoCities.NumConstraints | src/Scheme/TwoCities.cpp:159-161 | two constraints per mode |
| TwoCities.ConstraintSlot | src/Scheme/TwoCities.cpp:163-169 | an even constraint index penalises slot 2 (nr) and an odd one slot 3 (nl) |
| TwoCities.ConstraintIndex | src/Scheme/TwoCities.cpp:171-181 | constraint i addresses slot num_para·(i/2) + 2 + i%2 |
| TwoCities.ConstraintIndexBijective | src/Scheme/TwoCities.cpp:171-181 | distinct constraints address distinct slots, 2J and 2J + 1 address mode J's two orders, and every address is an order slot |
| TwoCities.ConstraintInRange | src/Scheme/TwoCities.cpp:163-181 | every constraint below NumConstraints addresses a slot inside x |
| TwoCities.EvaluateConstraint | src/Scheme/TwoCities.cpp:163-169 | weight·decimal(n)² is non-negative, and with a positive weight zero exactly when the addressed order is whole |
| TwoCities.OrderPenaltySlope | src/Scheme/TwoCities.cpp:180 | for a positive weight and max order the order slope vanishes exactly for a whole order |
| TwoCities.GradientConstraint | src/Scheme/TwoCities.cpp:171-181 | the constraint gradient is zero except at the addressed order slot |
| ThreeWiseMen.Factor | src/Scheme/ThreeWiseMen.cpp:21-31 | the denominator c² + γ is at least 0.02 and at least 1 + γ, so the response is defined |
| ThreeWiseMen.Shape | src/Scheme/ThreeWiseMen.cpp:21-31 | the unit shape is positive and 1 at the peak |
| ThreeWiseMen.Response | src/Scheme/ThreeWiseMen.cpp:21-31 | response equals z at x = w, is positive for positive z and zero for zero z |
| ThreeWiseMen.Gradient | src/Scheme/ThreeWiseMen.cpp:33-51 | compute_gradient returns num_para + 1 entries |
| ThreeWiseMen.GradientResponse | src/Scheme/ThreeWiseMen.cpp:33-51 | out(0) is the response and out(2) the unit-height response |
| ThreeWiseMen.GradientAtCorner | src/Scheme/ThreeWiseMen.cpp:33-51 | at x = w: out(0) = z and the slopes in w and γ vanish |
| ThreeWiseMen.GammaSecant | src/Scheme/ThreeWiseMen.cpp:21-31 | the change of the response between two γ is (γ1 − γ2) times the product form of the γ entry |
| ThreeWiseMen.GammaEntryIsSlope | src/Scheme/ThreeWiseMen.cpp:33-51 | out(3) is z·c(c² − 1)/(c² + γ)², the slope the secant identity gives |
| ThreeWiseMen.GammaOf | src/Scheme/ThreeWiseMen.cpp:53-61 | p² − 0.98 is at least −0.98, so γ never reaches −1 |
| ThreeWiseMen.GammaOfSecant | src/Scheme/ThreeWiseMen.cpp:63-75 | γ(u) − γ(v) = (u − v)(u + v), whose limit is the derivative 2p in ds |
| ThreeWiseMen.S | src/Scheme/ThreeWiseMen.cpp:53-61 | s gives an admissible mode: frequency in band, damping ratio in (0, max_zeta), γ = p² − 0.98 |
| ThreeWiseMen.DS | src/Scheme/ThreeWiseMen.cpp:63-75 | ds entries are the chain-rule slopes of s, the γ slope being 2p |
| Family.NumPara | src/Scheme/ZeroDay.h:7 | num_para is 2 for Zero Day, 3 for Unicorn and Three Wise Men and 4 for Two Cities (each scheme header declares it at line 7) |
| Family.S | src/Scheme/ObjectiveFunction.h:22 | each scheme's s keeps the block size and gives an admissible mode whenever the order bound allows one (a non-negative max order for Two Cities) |
| Family.DS | src/Scheme/ObjectiveFunction.h:23 | each scheme's ds keeps the block size |
| Family.Gradient | src/Scheme/ZeroDay.cpp:62 | each scheme's gradient has num_para + 1 entries |
| Family.GradientLeadsWithResponse | src/Scheme/ZeroDay.cpp:62-63 | the value cached as the response is the gradient's first entry, for every scheme |
| Family.PenalisedSlotsAreOrders | src/Scheme/TwoCities.cpp:93-124 | only order slots, at offset 2 and above, carry a penalty, and only in Unicorn and Two Cities |
| Family.NumConstraints | src/Scheme/ObjectiveFunction.cpp:42 | zero constraints unless the scheme penalises orders, then between one and two per mode |
| Family.EvaluateConstraint | src/Scheme/ObjectiveFunction.cpp:44 | schemes without an order penalty keep the base value 0, and every constraint is non-negative for a non-negative weight |
| Family.ConstraintBlockInRange | src/Scheme/TwoCities.cpp:163-169 | the block a valid constraint index reads lies inside x, for Unicorn (mode i) and Two Cities (mode i/2) |
| Family.GradientConstraint | src/Scheme/ObjectiveFunction.cpp:46-48 | the constraint gradient has the shape of x, and is the base class's zeros for schemes without an order penalty |
| Family.TypeDigit | src/Scheme/ThreeWiseMen.cpp:108 | the type digit a scheme's getTypeList writes is 0 to 3 |
| ObjectiveSpec.Params | src/Scheme/ZeroDay.cpp:58-59 | s of mode J's raw block has num_para entries, and is admissible whenever the order bound allows |
| ObjectiveSpec.Jacobian | src/Scheme/ZeroDay.cpp:60 | ds of mode J's raw block has num_para entries |
| ObjectiveSpec.ModeGradient | src/Scheme/ZeroDay.cpp:62 | compute_gradient at a sample for mode J has num_para + 1 entries |
| ObjectiveSpec.CacheValueIsResponse | src/Scheme/ZeroDay.cpp:62-63 | the cached entry response(J, I) is mode J's response at the sample's frequency |
| ObjectiveSpec.Column | src/Scheme/ZeroDay.cpp:57-67 | one response per mode at a frequency |
| ObjectiveSpec.SquaredResiduals | src/Scheme/ZeroDay.cpp:69-75 | one squared residual per sample, each non-negative |
| ObjectiveSpec.ChainTable | src/Scheme/ZeroDay.cpp:64-65 | dg's entry at row r and sample I is the chain-rule product for that slot and sample |
| ObjectiveSpec.ChainEntryOfRow | src/Scheme/ZeroDay.cpp:64-65 | row r of dg belongs to the mode whose block contains r, at offset r − num_para·J |
| ObjectiveSpec.ResponseTable | src/Scheme/ZeroDay.cpp:63 | the response cache holds, for each mode and sample, that mode's response |
| ObjectiveSpec.ModeColumn | src/Scheme/ZeroDay.cpp:62-65 | one evaluation of compute_gradient fills the response entry and the mode's num_para rows of dg |
| ObjectiveSpec.ModeChainEntry | src/Scheme/ZeroDay.cpp:65 | each row of the mode's block in dg is grad.tail(num_para) % dsp |
| ObjectiveSpec.ResponseColumn | src/Scheme/ZeroDay.cpp:69 | column I of the cache is the column of mode responses the residual sums |
| ObjectiveSpec.TableColumn | src/Scheme/ZeroDay.cpp:69 | response.col(I) holds entry I of every mode row |
| ObjectiveSpec.GradientTable | src/Scheme/ZeroDay.cpp:71 | dg after scaling holds the gradient contributions of every sample |
| ObjectiveSpec.GradientTermAt | src/Scheme/ZeroDay.cpp:71 | each scaled entry is the chain-rule product times 2·fi(I) |
| ObjectiveSpec.Residual | src/Scheme/ZeroDay.cpp:69 | fi: the summed mode responses at the sample minus its target ratio; ResponseColumn ties the sum to the cache and GradientTermAt uses it as the factor 2·fi(I) |
| ObjectiveSpec.LeastSquares | src/Scheme/ZeroDay.cpp:75 | accu(pow(fi, 2)); LeastSquaresNonNegative shows it is never negative |
| ObjectiveSpec.LeastSquaresGradient | src/Scheme/ZeroDay.cpp:71-73 | entry r of sum(dg, 1); GradientTermAt gives each of its terms and PenaltyOnlyAtOrderSlots shows it is the whole gradient outside order slots |
| ObjectiveSpec.Penalty | src/Scheme/Unicorn.cpp:107-111 | weight·accu(pow(decimal(n), 2)) for Unicorn and Two Cities, 0 otherwise; PenaltyNonNegative and PenaltyZeroIffWholeOrders state its sign and its zeros |
| ObjectiveSpec.Loss | src/Scheme/Unicorn.cpp:111 | the value EvaluateWithGradient returns; LossNonNegative and LossIsLeastSquaresIffWholeOrders state its properties |
| ObjectiveSpec.PenaltyGradient | src/Scheme/Unicorn.cpp:107-109 | what the penalty adds to entry r; PenaltyAtOrderSlot and PenaltyOffOrderSlot give its value in and outside order slots |
| ObjectiveSpec.TotalGradient | src/Scheme/Unicorn.cpp:101-109 | entry r of g; PenaltyOnlyAtOrderSlots and PenaltySlopesArePenaltyGradient tie it to the scattered penalty slopes |
| ObjectiveSpec.ModePenalty | src/Scheme/Unicorn.cpp:107-111 | each mode's penalty is non-negative |
| ObjectiveSpec.ModePenalties | src/Scheme/TwoCities.cpp:118-123 | one non-negative penalty per mode |
| ObjectiveSpec.LeastSquaresNonNegative | src/Scheme/ZeroDay.cpp:75 | accu(pow(fi, 2)) is non-negative |
| ObjectiveSpec.PenaltyNonNegative | src/Scheme/Unicorn.cpp:111 | weight·accu(pow(floor_diff, 2)) is non-negative for a non-negative weight |
| ObjectiveSpec.LossNonNegative | src/Scheme/Unicorn.cpp:111 | the objective value is non-negative for a non-negative weight |
| ObjectiveSpec.ModePenaltyZero | src/Scheme/TwoCities.cpp:118-123 | a mode pays no penalty exactly when all its orders are whole |
| ObjectiveSpec.LossIsLeastSquaresIffWholeOrders | src/Scheme/Unicorn.cpp:107-111 | with a positive weight the objective equals the plain least squares exactly when every order is whole |
| ObjectiveSpec.PenaltyZeroIffWholeOrders | src/Scheme/Unicorn.cpp:107-111 | with a positive weight the penalty vanishes exactly when every order is whole |
| ObjectiveSpec.PenaltiesZeroIffWholeOrders | src/Scheme/TwoCities.cpp:118-123 | all per-mode penalties vanish exactly when every order is whole |
| ObjectiveSpec.PenaltyOnlyAtOrderSlots | src/Scheme/Unicorn.cpp:109 | the gradient in a slot that is not an order is the least-squares gradient alone |
| ObjectiveSpec.PenaltyAtOrderSlot | src/Scheme/Unicorn.cpp:109 | the penalty gradient in an order slot is 2·weight·decimal(n)·dn |
| ObjectiveSpec.PenaltyGradientOfSlot | src/Scheme/TwoCities.cpp:118-123 | the penalty gradient is the order slope in an order slot and zero elsewhere |
| ObjectiveSpec.PenaltyOffOrderSlot | src/Scheme/TwoCities.cpp:118-123 | the penalty gradient is zero outside the order slots |
| ObjectiveSpec.OrderTails | src/Scheme/Unicorn.cpp:92 | n collects each mode's orders, num_para − 2 of them |
| ObjectiveSpec.SlopeTails | src/Scheme/Unicorn.cpp:93 | dn collects each mode's order slopes |
| ObjectiveSpec.TailsOfMode | src/Scheme/TwoCities.cpp:93-124 | n and dn of mode J are the order entries of s and ds of its block |
| ObjectiveSpec.Range | src/Scheme/ObjectiveFunction.cpp:19 | linspace(0, num_modes − 1, num_modes) lists 0 … num_modes − 1 |
| ObjectiveSpec.SlotIndices | src/Scheme/Unicorn.cpp:109 | num_para·base + k addresses slot k of each listed mode, always inside x |
| ObjectiveSpec.AddAt | src/Scheme/Unicorn.cpp:109 | an indexed += keeps the length of g |
| ObjectiveSpec.AddAtSlots | src/Scheme/Unicorn.cpp:109 | g(num_para·base + k) += v adds v[J] to mode J's slot k and leaves every other slot unchanged |
| ObjectiveSpec.SlopeColumn | src/Scheme/TwoCities.cpp:118-123 | one penalty slope per mode for a given order |
| ObjectiveSpec.AddPenaltySlopes | src/Scheme/TwoCities.cpp:118-123 | adding the penalty slopes keeps the length of g |
| ObjectiveSpec.ScatterSlot | src/Scheme/Unicorn.cpp:109 | the scatter over all modes adds w[J] at exactly slot k of each mode J |
| ObjectiveSpec.ScatterUnicorn | src/Scheme/Unicorn.cpp:109 | Unicorn's scatter adds the order slope to slot 2 of each mode and nothing elsewhere |
| ObjectiveSpec.ScatterTwoCities | src/Scheme/TwoCities.cpp:118-123 | Two Cities' scatter adds the nr and nl slopes to slots 2 and 3 of each mode and nothing elsewhere |
| ObjectiveSpec.ScatterAt | src/Scheme/TwoCities.cpp:118-123 | for either penalised scheme the scatter adds the slope exactly at the order slots |
| ObjectiveSpec.PenaltySlopesArePenaltyGradient | src/Scheme/Unicorn.cpp:107-109 | after the scatter every slot of g holds its least-squares part plus the penalty gradient |
| ObjectiveSpec.FloorSquares | src/Scheme/TwoCities.cpp:123 | the sum of squared decimals of a mode's orders is non-negative |
| ObjectiveSpec.FloorSquaresOne | src/Scheme/Unicorn.cpp:111 | a single order contributes decimal(n)² |
| ObjectiveSpec.FloorSquaresTwo | src/Scheme/TwoCities.cpp:123 | two orders contribute decimal(nr)² + decimal(nl)² |
| ObjectiveSpec.FloorSquaresOfMode | src/Scheme/TwoCities.cpp:118-123 | the squared decimals of a mode's orders are that mode's penalty |
| ObjectiveSpec.FloorSquaresArePenalties | src/Scheme/Unicorn.cpp:107-111 | accu(pow(floor_diff, 2)) taken per mode is the list of mode penalties |
| Objective.Omegas | src/Scheme/ObjectiveFunction.cpp:13-14 | row 0 of the sampling, one frequency per sample |
| Objective.Zetas | src/Scheme/ObjectiveFunction.cpp:15-16 | row 1 of the sampling, one damping ratio per sample |
| Objective.MinMaxOmega | src/Scheme/ObjectiveFunction.cpp:13-14 | with positive frequencies 0 < min ≤ max |
| Objective.RangeOmegaAtLeast | src/Scheme/ObjectiveFunction.cpp:17 | range_omega is at least 0.2, so the frequency band is never empty |
| Objective.SamplingBounds | src/Scheme/ObjectiveFunction.cpp:13-16 | min_omega and max_omega are log10 of the extreme frequencies widened by 0.1 and at least 0.2 apart; min_zeta and max_zeta are the extreme ratios |
| Objective.Permute | src/Scheme/ObjectiveFunction.cpp:53 | sampling.cols(ordering) puts column ordering[I] at position I |
| Objective.PermutationInRange | src/Scheme/ObjectiveFunction.cpp:51 | every entry of a permutation of 0 … n − 1 is below n |
| Objective.PermutePreservesMultiset | src/Scheme/ObjectiveFunction.cpp:50-55 | reordering by a permutation keeps exactly the same samples |
| Objective.PermuteColumns | src/Scheme/ObjectiveFunction.cpp:54 | response.cols(ordering) is a fresh matrix whose column I is old column ordering[I] |
| Objective.Row | src/Scheme/ZeroDay.cpp:73 | row r of dg |
| Objective.RowSums | src/Scheme/ZeroDay.cpp:73 | sum(dg, 1) is the sum of each row |
| Objective.StoreChain | src/Scheme/ZeroDay.cpp:64-65 | writing gi sets rows row0 … row0 + num_para − 1 of column I to grad(k + 1)·dsp(k) and changes nothing else |
| Objective.ScaleColumns | src/Scheme/ZeroDay.cpp:71 | dg.col(I) *= 2·fi(I) scales every entry of column I |
| Objective.Snapshot | src/Scheme/ZeroDay.cpp:63 | the response cache as a table of values |
| Objective.ChainBlockDone | src/Scheme/ZeroDay.cpp:57-67 | a finished mode pass leaves every row of the blocks done so far filled |
| Objective.CacheModeDone | src/Scheme/ZeroDay.cpp:57-67 | a finished mode pass leaves that mode's cache row filled |
| Objective.StoreChainEntries | src/Scheme/ZeroDay.cpp:64-65 | one sample of one mode fills its column of the mode's block |
| Objective.StoreResponse | src/Scheme/ZeroDay.cpp:63 | one sample of one mode fills its cache entry |
| Objective.FillSample | src/Scheme/ZeroDay.cpp:61-66 | one sample of one mode fills both the cache entry and the dg column |
| Objective.FillMode | src/Scheme/Unicorn.cpp:88-99 | one mode pass fills that mode's cache row and dg block and returns s and ds, whose tails are n and dn |
| Objective.FillCache | src/Scheme/ZeroDay.cpp:55-67 | the mode loop leaves dg equal to the chain table and the cache equal to the response table for the window, with n and dn for the penalised schemes |
| Objective.FillModes | src/Scheme/TwoCities.cpp:131-143 | the passes over every mode, from an untouched cache and dg, leave each pass done and collect every mode's orders and order slopes |
| Objective.CollectOrders | src/Scheme/TwoCities.cpp:135-136 | for the penalised schemes, n and dn gain exactly column J (the tails of s and ds of mode J); otherwise they stay empty |
| Objective.CacheColumn | src/Scheme/ZeroDay.cpp:69 | column I of the response cache |
| Objective.WindowResiduals | src/Scheme/ZeroDay.cpp:93 | fi(I) is the column sum of the cache minus the sample's damping ratio |
| Objective.CacheHoldsTable | src/Scheme/ZeroDay.cpp:69 | a filled cache column is the column of mode responses |
| Objective.ResidualsFromCache | src/Scheme/ZeroDay.cpp:69 | every fi(I) from the filled cache is the residual of that sample |
| Objective.ResidualFromCache | src/Scheme/ZeroDay.cpp:93 | one fi(I) from the filled cache is the residual of sample i + I |
| Objective.Squares | src/Scheme/ZeroDay.cpp:75 | pow(fi, 2) squares each entry |
| Objective.ScaleChain | src/Scheme/ZeroDay.cpp:71 | scaling the filled dg gives chain entry times 2·fi(I) in every cell |
| Objective.Window | src/Scheme/ZeroDay.cpp:93 | cols(i, i + batchSize − 1) of the sampling, with positive frequencies kept |
| Objective.WholeWindow | src/Scheme/ZeroDay.cpp:54-76 | the window over all columns is the whole sampling |
| Objective.ScaledRowSums | src/Scheme/ZeroDay.cpp:73 | the row sums of the scaled dg are the sums of the gradient table's rows |
| Objective.EntryIsGradientTerm | src/Scheme/ZeroDay.cpp:95 | a scaled entry of the batch is the gradient term of the window's sample |
| Objective.ScaledChainIsGradientTable | src/Scheme/ZeroDay.cpp:95 | the scaled dg of a batch is the gradient table of the window |
| Objective.WindowLoss | src/Scheme/TwoCities.cpp:126-157 | the returned value is the loss on the window: squares of fi, plus the weighted penalty for the penalised schemes |
| Objective.WindowGradient | src/Scheme/TwoCities.cpp:126-157 | the returned g is the full gradient on the window, the penalty slopes included for the penalised schemes |
| Objective.EvaluateWindow | src/Scheme/TwoCities.cpp:126-157 | EvaluateWithGradient on columns lo … lo + count − 1 returns the loss and the gradient of the objective on that window and refreshes exactly those cache columns |
| Objective.ScaledRows | src/Scheme/TwoCities.cpp:145-149 | from a filled cache and dg: fi is the residual of every window sample, and the row sums of the scaled dg are the data gradient of the window |
| Objective.GradientFromCache | src/Scheme/TwoCities.cpp:145-156 | after the mode loop, the loss and the gradient returned are those of the objective on the window, penalty included for the penalised schemes |
| Objective.ObjectiveFunction.constructor | src/Scheme/ObjectiveFunction.cpp:7-8 | a new objective has the given mode count, empty sampling, zero bounds and weight, and max_order 10 |
| Objective.ObjectiveFunction.InitializeSampling | src/Scheme/ObjectiveFunction.cpp:10-20 | stores the sampling; the frequency band is log10 min − 0.1 to log10 max + 0.1; the damping bounds are the min and max ratio; the range is at least 0.2; base lists the modes; weight and max order are kept |
| Objective.ObjectiveFunction.SetWeight | src/Scheme/ObjectiveFunction.cpp:22-24 | the weight becomes the argument |
| Objective.ObjectiveFunction.SetMaxOrder | src/Scheme/ObjectiveFunction.cpp:26-28 | the max order becomes the argument |
| Objective.ObjectiveFunction.GetNumberModes | src/Scheme/ObjectiveFunction.cpp:30-32 | the mode count given at construction |
| Objective.ObjectiveFunction.NumFunctions | src/Scheme/ObjectiveFunction.cpp:57 | the number of samples |
| Objective.ObjectiveFunction.Shuffle | src/Scheme/ObjectiveFunction.cpp:50-55 | sampling and response are reordered by the same permutation, which keeps the samples as a multiset; bounds, base, weight and max order are unchanged |
| Objective.ObjectiveFunction.EvaluateWithGradient | src/Scheme/ZeroDay.cpp:54-76 | returns the loss and gradient of the objective over all samples, and fills the cache with every mode's response |
| Objective.ObjectiveFunction.EvaluateWithGradientBatch | src/Scheme/ZeroDay.cpp:78-100 | returns the loss and gradient of the objective over columns i … i + batchSize − 1, refreshing exactly those cache columns |
| Objective.ObjectiveFunction.Evaluate | src/Scheme/ObjectiveFunction.cpp:34-38 | returns the objective value over all samples, computed through EvaluateWithGradient |
| Objective.ObjectiveFunction.Gradient | src/Scheme/ObjectiveFunction.cpp:40 | returns the objective's gradient over all samples, computed through EvaluateWithGradient |
| Objective.ObjectiveFunction.EvaluateBatch | src/Scheme/ObjectiveFunction.cpp:59-63 | the batch Evaluate returns the loss on the window |
| Objective.ObjectiveFunction.GradientBatch | src/Scheme/ObjectiveFunction.cpp:65-67 | the batch Gradient returns the gradient on the window |
| OptimizerTuning.DefaultSetting | src/Scheme/OptimizerTuning.hpp:23-30 | max order 5, batch 32, 20000 iterations, tolerance 1e-8, step 1e-3, weight 1e-4 |
| OptimizerTuning.FitOptimizerKnobs | src/Scheme/OptimizerTuning.hpp:32-88 | L-BFGS and AugLagrangian take none of step size, tolerance or batch size; gradient descent takes step size and tolerance but no batch size; only KatyushaProximal and unspecialised kinds take a batch size |
| OptimizerTuning.Optimizer.constructor | src/Scheme/OptimizerTuning.hpp:122 | a fresh optimizer holds its kind and the given value of every knob |
| OptimizerTuning.Optimizer.SetStepSize | src/Scheme/OptimizerTuning.hpp:32-47 | sets the step size unless the kind specialises StepSize to a no-op |
| OptimizerTuning.Optimizer.SetTolerance | src/Scheme/OptimizerTuning.hpp:49-58 | sets the tolerance unless the kind specialises Tolerance to a no-op |
| OptimizerTuning.Optimizer.SetBatchSize | src/Scheme/OptimizerTuning.hpp:60-77 | sets the batch size unless the kind specialises BatchSize to a no-op |
| OptimizerTuning.Optimizer.SetMaxIterations | src/Scheme/OptimizerTuning.hpp:79-88 | sets MaxGenerations for CNE and DE and MaxIterations for every other kind |
| OptimizerTuning.Optimizer.Configure | src/Scheme/OptimizerTuning.hpp:122-126 | the four setter calls leave every knob at the setting's value or, where the kind ignores it, unchanged |
| OptimizerTuning.QuitFlag.constructor | src/MainWindow.cpp:518 | the quit flag holds the value it is given, false before each fit |
| OptimizerTuning.EarlyQuit.constructor | src/Scheme/OptimizerTuning.hpp:95-96 | the callback refers to the given quit flag |
| OptimizerTuning.EarlyQuit.BeginOptimization | src/Scheme/OptimizerTuning.hpp:98-101 | stops exactly when the quit flag is set |
| OptimizerTuning.EarlyQuit.Evaluate | src/Scheme/OptimizerTuning.hpp:103-107 | stops exactly when the quit flag is set |
| OptimizerTuning.EarlyQuit.Gradient | src/Scheme/OptimizerTuning.hpp:109-113 | stops exactly when the quit flag is set |
| OptimizerTuning.EarlyQuit.StepTaken | src/Scheme/OptimizerTuning.hpp:115-118 | stops exactly when the quit flag is set |
| OptimizerTuning.DecodeResult | src/Scheme/OptimizerTuning.hpp:135 | one row per mode, row J being s of mode J's raw block |
| OptimizerTuning.DecodedModesReproduceCache | src/Scheme/OptimizerTuning.hpp:135 | each decoded row is an admissible parameter set whose response at any positive frequency is what the objective caches for that mode |
| OptimizerTuning.StartVector | src/Scheme/OptimizerTuning.hpp:131 | the start vector is twice the normal draws |
| OptimizerTuning.RunOptimizer | src/Scheme/OptimizerTuning.hpp:121-136 | after run_optimizer the knobs are configured, the objective has the setting's weight and max order, the start vector has getSize()·getNumberModes() slots and the result is the decoded vector |
| DampingModes.ParamCount | src/MainWindow.cpp:207-247 | Type 0 to 4 read 0, 1, 2, 1 and 5 parameters |
| DampingModes.Side | src/DampingMode.cpp:12 | l is −1 for negative ω and 1 otherwise |
| DampingModes.RelFreq | src/DampingMode.cpp:13 | \|ω/ωp\| is non-negative, zero exactly at ω = 0 and 1 at the peak |
| DampingModes.T0IsZeroDayResponse | src/DampingMode.cpp:11-15 | on positive frequencies a Type 0 mode is the Zero Day response |
| DampingModes.BellIsReciprocalCosh | src/DampingMode.cpp:11-15 | n0 on the positive side is 1/cosh(ln ωr) |
| DampingModes.ReciprocalShape | src/DampingMode.cpp:91-98 | the Type 3 expression with n0 = 1/c is Three Wise Men's shape |
| DampingModes.T3IsThreeWiseMenResponse | src/DampingMode.cpp:91-98 | on positive frequencies a Type 3 mode is the Three Wise Men response |
| DampingModes.T2IsTwoCitiesResponse | src/DampingMode.cpp:54-73 | on positive frequencies a Type 2 mode with non-negative orders is the Two Cities response |
| DampingModes.UnitBellShape | src/DampingMode.cpp:91-98 | the Type 3 expression at n0 = 1 is ζp for any γ other than −1 |
| DampingModes.T3AtUnitBell | src/DampingMode.cpp:91-98 | a Type 3 mode where n0 = 1 on the positive side is defined and equals ζp |
| DampingModes.AtCorner | src/DampingMode.cpp:11-15 | at ω = ωp: l = 1, ωr = 1 and n0 = 1 |
| DampingModes.T0PeakValue | src/DampingMode.cpp:11-15 | a Type 0 mode equals ζp at its peak |
| DampingModes.AtPeak | src/DampingMode.cpp:111-150 | at ω = ωp a mode is its value on the positive side at ωr = 1 |
| DampingModes.T1AtUnitBell | src/DampingMode.cpp:28-37 | a Type 1 mode where n0 = 1 on the positive side is defined and equals ζp, whatever its order |
| DampingModes.T1AtOne | src/DampingMode.cpp:28-37 | on the positive side at ωr = 1 a Type 1 mode is defined and equals ζp |
| DampingModes.T1PeakValue | src/DampingMode.cpp:28-37 | a Type 1 mode of any order equals ζp at its peak |
| DampingModes.T3AtOne | src/DampingMode.cpp:91-98 | on the positive side at ωr = 1 a Type 3 mode with γ ≠ −1 is defined and equals ζp |
| DampingModes.T3PeakValue | src/DampingMode.cpp:91-98 | a Type 3 mode with γ ≠ −1 equals ζp at its peak |
| DampingModes.PairAtPeak | src/DampingMode.cpp:111-150 | on the positive side at ωr = 1 an order pair of Type 4 is defined and is 1 |
| DampingModes.T4PeakValue | src/DampingMode.cpp:111-150 | a Type 4 mode equals ζp at its peak when neither order pair sums to −1, 2n + 1 ≠ 0 for both leading orders, and γ ≠ −1 |
| DampingModes.NegativePole | src/DampingMode.cpp:11-15 | Type 0, 1 and 3 divide by zero at ω = −ωp |
| DampingModes.SignRules | src/DampingMode.cpp:119-124 | on the negative side the rising power is negative exactly when unsigned(n) is even, the falling power exactly when unsigned(nps) is odd; both are positive on the positive side |
| DampingModes.T1SignRule | src/DampingMode.cpp:28-37 | Type 1 is ζp·n0^(2n+1), negated for negative ω when unsigned(n) is odd |
| DampingModes.Mirror | src/DampingMode.cpp:12-13 | −ω and ω have the same ωr and opposite sides |
| DampingModes.PairMirror | src/DampingMode.cpp:54-73 | with unsigned(nps) even the pair shape at −ω is the one at ω, negated when unsigned(nl) is even |
| DampingModes.T2Symmetry | src/DampingMode.cpp:54-73 | a Type 2 curve is even in ω for odd unsigned(nl) and odd in ω for even unsigned(nl), when unsigned(nps) is even |
| DampingModes.ModeValue | src/DampingMode.cpp:11-126 | operator() of every mode type at ω; a zero ζp gives zero and T0 and T3 vanish at ω = 0; the closed forms are tied to the schemes by T0IsZeroDayResponse, T3IsThreeWiseMenResponse and T2IsTwoCitiesResponse, the negative side by SignRules and T2Symmetry |
| DampingModes.ValueAt | src/DampingMode.cpp:11-126 | the same value written at side l and relative frequency ωr: zero for ζp = 0, and zero at ωr = 0 for T0 and T3 |
| DampingModes.RoundFirst | src/DampingMode.cpp:153-158 | the first k parameters are rounded and the rest kept |
| DampingModes.RoundedCount | src/DampingMode.cpp:39-41 | tidyUp rounds at most the mode's parameters, all but γ for Type 4 |
| DampingModes.Tidy | src/DampingMode.cpp:75-78 | tidyUp keeps the parameter count |
| DampingModes.TidyProperties | src/DampingMode.cpp:6 | after tidyUp the orders are whole and the rest unchanged; Type 0 and 3 are untouched; a second tidyUp changes nothing |
| DampingModes.DampingMode.constructor | src/DampingMode.cpp:3-4 | a mode holds the given ωp, ζp, parameters and type |
| DampingModes.DampingMode.TidyUp | src/DampingMode.cpp:39-41 | the parameters become their tidied form |
| DampingCurves.Resize | src/DampingCurve.cpp:5-7 | QVector::resize keeps the first entries and pads with zeros |
| DampingCurves.ResizeRows | src/DampingCurve.cpp:8-10 | zeta gets one row per mode, each of the sample count |
| DampingCurves.RemoveTag | src/DampingCurve.cpp:25-35 | tag −1 clears; a tag in range removes exactly that entry and keeps the order of the rest; a tag out of range changes nothing |
| DampingCurves.LinearGrid | src/DampingCurve.cpp:42-45 | samples frequencies i/(samples − 1)·gap + start |
| DampingCurves.LinearGridEnds | src/DampingCurve.cpp:43 | the linear grid starts at start and ends at end |
| DampingCurves.LinearGridStep | src/DampingCurve.cpp:43 | consecutive points differ by gap/(samples − 1) |
| DampingCurves.LinearGridShape | src/DampingCurve.cpp:37-48 | the grid is evenly spaced, and strictly ascending when end > start |
| DampingCurves.LogGrid | src/DampingCurve.cpp:53-61 | point i is 10 raised to point i of the linear grid over log10 start … log10 end |
| DampingCurves.LogGridShape | src/DampingCurve.cpp:50-64 | every point is positive, and the grid ascends strictly when log10 end > log10 start |
| DampingCurves.ModeColumn | src/DampingCurve.cpp:69-70 | the value of every mode at one frequency |
| DampingCurves.GridColumns | src/DampingCurve.cpp:14-18 | the mode values at every grid frequency |
| DampingCurves.ModeRow | src/DampingCurve.cpp:16 | one mode's values over the grid |
| DampingCurves.ModeRows | src/DampingCurve.cpp:16 | zeta[j] is mode j's values over the grid |
| DampingCurves.RowsAreColumns | src/DampingCurve.cpp:14-18 | the rows by mode and the columns by frequency hold the same values |
| DampingCurves.SumsComplete | src/DampingCurve.cpp:17 | after all modes zeta_sum[i] is its old value plus the sum of the mode values at ω[i] |
| DampingCurves.DampingCurve.constructor | src/DampingCurve.h:29-33 | a new curve has no modes and empty vectors |
| DampingCurves.DampingCurve.AddMode | src/DampingCurve.cpp:21-23 | the mode is appended |
| DampingCurves.DampingCurve.RemoveMode | src/DampingCurve.cpp:25-35 | the modes become RemoveTag of the old modes |
| DampingCurves.DampingCurve.Count | src/DampingCurve.cpp:103-105 | the number of modes |
| DampingCurves.DampingCurve.InitializeVector | src/DampingCurve.cpp:4-11 | omega and zeta_sum are resized to the sample count, and zeta to one row per mode |
| DampingCurves.DampingCurve.ComputeCurve | src/DampingCurve.cpp:13-19 | zeta holds every mode's values over the grid, and zeta_sum[i] grows by the sum of the mode values at ω[i] |
| DampingCurves.DampingCurve.ComputeRows | src/DampingCurve.cpp:14-18 | the outer loop over modes fills zeta and accumulates zeta_sum |
| DampingCurves.DampingCurve.ComputeRow | src/DampingCurve.cpp:15-18 | one mode's pass writes its row and adds it to zeta_sum |
| DampingCurves.DampingCurve.UpdateLinearDampingCurve | src/DampingCurve.cpp:37-48 | omega becomes the linear grid and zeta and zeta_sum hold the mode values and their sums on it |
| DampingCurves.DampingCurve.FillLinearGrid | src/DampingCurve.cpp:42-45 | the sampling loop writes the linear grid and zeroes zeta_sum |
| DampingCurves.DampingCurve.UpdateLogarithmicDampingCurve | src/DampingCurve.cpp:50-64 | omega becomes the logarithmic grid and zeta and zeta_sum hold the mode values and their sums on it |
| DampingCurves.DampingCurve.FillLogGrid | src/DampingCurve.cpp:58-61 | the sampling loop writes the logarithmic grid and zeroes zeta_sum |
| DampingCurves.DampingCurve.Query | src/DampingCurve.cpp:66-73 | query returns the sum of every mode's value at the frequency |
| DampingCurves.DampingCurve.DampingRatioVector | src/DampingCurve.cpp:79-83 | tag −1 gives zeta_sum and any other tag that mode's row |
| DampingCurves.DampingCurve.MinFrequency | src/DampingCurve.cpp:107-109 | the smallest grid frequency |
| DampingCurves.DampingCurve.MaxFrequency | src/DampingCurve.cpp:111-113 | the largest grid frequency |
| DampingCurves.DampingCurve.MinDampingRatio | src/DampingCurve.cpp:115-124 | max(−1, min(0, every zeta entry, every zeta_sum entry)): the result lies in [−1, 0], is −1 exactly when some entry is at most −1, is otherwise no larger than every entry, and is 0, −1 or an entry |
| DampingCurves.DampingCurve.MaxDampingRatio | src/DampingCurve.cpp:126-135 | min(1, max(0, every zeta entry, every zeta_sum entry)): the result lies in [0, 1], is 1 exactly when some entry is at least 1, is otherwise no smaller than every entry, and is 0, 1 or an entry |
| DampingCurves.DampingCurve.TidyUp | src/DampingCurve.cpp:137-140 | every mode's parameters become their tidied form |
| DampingCurves.Insert | src/DampingCurve.cpp:190 | inserting into a frequency-sorted list keeps it sorted and adds exactly the new row |
| DampingCurves.SortByFrequency | src/DampingCurve.cpp:190-192 | sort_index then rows(ordering) gives the same rows sorted by frequency |
| DampingCurves.ControlPoint.constructor | src/DampingCurve.h:8-10 | a new control-point list is empty |
| DampingCurves.ControlPoint.AddPoint | src/DampingCurve.cpp:142-145 | appends the point to both vectors |
| DampingCurves.ControlPoint.RemovePoint | src/DampingCurve.cpp:147-156 | tag −1 clears both vectors, any other tag removes that point from both |
| DampingCurves.ControlPoint.Count | src/DampingCurve.cpp:195-197 | the number of points |
| DampingCurves.ControlPoint.MinFrequency | src/DampingCurve.cpp:166-168 | the smallest frequency among the points |
| DampingCurves.ControlPoint.MaxFrequency | src/DampingCurve.cpp:170-172 | the largest frequency among the points |
| DampingCurves.ControlPoint.MinDampingRatio | src/DampingCurve.cpp:174-176 | the smallest damping ratio among the points; None, for the undefined `*min_element` of an empty list, exactly when there are none |
| DampingCurves.ControlPoint.MaxDampingRatio | src/DampingCurve.cpp:178-180 | the largest damping ratio among the points; None, for the undefined `*max_element` of an empty list, exactly when there are none |
| DampingCurves.ControlPoint.Pairs | src/DampingCurve.cpp:185-188 | the sampling matrix: row I is (ω[I], ζ[I]) |
| DampingCurves.ControlPoint.GetSampling | src/DampingCurve.cpp:182-193 | the points as rows, sorted by frequency, with the same rows |
| MainWindowModel.Split | src/MainWindow.cpp:638 | QString::split(" ") yields at least one field |
| MainWindowModel.SplitGlue | src/MainWindow.cpp:638 | a piece without a space joins the first field after it |
| MainWindowModel.SplitJoin | src/MainWindow.cpp:638 | splitting fields joined with single spaces gives back the fields, when none holds a space |
| MainWindowModel.Digit | src/DampingMode.cpp:18 | the type digit of a mode's str() is 0 to 4 |
| MainWindowModel.ModeFields | src/DampingMode.cpp:17-19 | str() splits into 5 + ParamCount(t) fields: three header fields, ωp and ζp, then one per parameter |
| MainWindowModel.ParamFields | src/DampingMode.cpp:43-45 | one field per parameter of the type |
| MainWindowModel.SchemeType | src/Scheme/TwoCities.cpp:183-190 | getTypeList writes modes of the type with the scheme's parameter count less two |
| MainWindowModel.SchemeFields | src/Scheme/ZeroDay.cpp:102-109 | a getTypeList line is a non-empty field list |
| MainWindowModel.ParseLine | src/MainWindow.cpp:637-685 | a line that is taken has at least five fields and sets a type index 0 to 4, ω from field 3 and ζ from field 4; the boxes a type does not read keep their values |
| MainWindowModel.LineStep | src/MainWindow.cpp:637-685 | a line the parser rejects leaves the panel; an accepted one sets it, and addType() adds a mode exactly when the panel yields one |
| MainWindowModel.PanelAfter | src/MainWindow.cpp:687-690 | after a list of lines the type, ω and ζ are the starting panel's, or all three come from one of the lines |
| MainWindowModel.PanelMode | src/MainWindow.cpp:198-250 | addType() builds a mode exactly when \|ζ\| ≥ 1e-4 and a type is selected, of that type, with ω, ζ and as many parameters as the type takes |
| MainWindowModel.AddedBy | src/MainWindow.cpp:687-690 | a list of lines adds at most one mode per line |
| MainWindowModel.ReadParams | src/MainWindow.cpp:650-653 | the values read from the fields after the fifth |
| MainWindowModel.TypeIndex | src/MainWindow.cpp:643 | the combo-box index of a type is 0 to 4 |
| MainWindowModel.ParseLineRule | src/MainWindow.cpp:637-685 | a line is taken exactly when its second field is a type digit and it has at least 5 + that type's parameter count fields |
| MainWindowModel.ParseLineFields | src/MainWindow.cpp:641-684 | a taken line sets the type, ω and ζ from fields 3 and 4, and the panel then yields that type with the parameters of fields 5 on, or nothing if \|ζ\| < 1e-4 |
| MainWindowModel.ModeFieldsSpaceless | src/DampingMode.cpp:17-19 | with space-free number formatting no field of str() holds a space |
| MainWindowModel.ModeLineRoundTrip | src/DampingMode.cpp:17-19 | reading a mode's str() back through addType(QString) yields the same type with the printed ωp, ζp and parameters, unless the printed ζp is below 1e-4 |
| MainWindowModel.SchemeLineRoundTrip | src/MainWindow.cpp:571-577 | reading a getTypeList line back yields a mode of the scheme's type with the result row's values |
| MainWindowModel.Without | src/MainWindow.cpp:252-260 | removing a set of rows never lengthens the list |
| MainWindowModel.WithoutMembers | src/MainWindow.cpp:252-260 | what remains is exactly the entries at unselected positions |
| MainWindowModel.WithoutNone | src/MainWindow.cpp:252-260 | removing no valid row changes nothing |
| MainWindowModel.WithoutOneMore | src/MainWindow.cpp:256-257 | removing one more row below all rows already removed is removeMode on the shorter list |
| MainWindowModel.RemoveTagAppend | src/DampingCurve.cpp:31-33 | erasing inside a prefix leaves the suffix in place |
| MainWindowModel.SortRows | src/MainWindow.cpp:255 | std::sort gives the same rows in ascending order |
| MainWindowModel.InsertRow | src/MainWindow.cpp:255 | inserting into an ascending list keeps it ascending and adds exactly the row |
| MainWindowModel.SchemeOfName | src/MainWindow.cpp:481-488 | a scheme name selects that scheme, and only that one |
| MainWindowModel.ValidateScheme | src/MainWindow.cpp:722-732 | a positive lower bound always passes; a refusal names one of the schemes other than Two Cities |
| MainWindowModel.ValidateSchemeRule | src/MainWindow.cpp:722-732 | the check passes exactly when minX > 0, or the name is Two Cities, or it names no scheme |
| MainWindowModel.FitGuardRule | src/MainWindow.cpp:465-468 | on the sorted reference the test of the first row passes exactly when the reference is non-empty and all of its frequencies are positive |
| MainWindowModel.FitSamples | src/MainWindow.cpp:489-514 | a single-row reference is used as is; otherwise the samples are the logspace grid from the smallest to the largest reference frequency, paired with the interpolated ratios |
| MainWindowModel.SortedFrequencyEnds | src/MainWindow.cpp:489-491 | on a reference sorted by frequency, the min and max of its frequency column are its first and last rows' |
| MainWindowModel.FitSamplesPositive | src/MainWindow.cpp:504-514 | every sample a fit starts from has a positive frequency |
| MainWindowModel.FitTaskSetting | src/MainWindow.cpp:495-500 | as written: step size, tolerance, weight and iterations come from the dialog, max order and batch size stay 5 and 32 |
| MainWindowModel.MaxOrderIgnored | src/MainWindow.cpp:495-500 | a max order of 3, which the dialog accepts, reaches the fit as 5 |
| MainWindowModel.FitTaskSettingCorrected | src/MainWindow.cpp:495-500 | the corrected setting takes every dialog value, keeps the dialog's acceptance, and differs from the written one only in max order and batch size |
| MainWindowModel.RunFit | src/MainWindow.cpp:519-525 | with the corrected setting the objective's weight and max order and every knob the optimizer honours are the dialog's |
| MainWindowModel.ScatterFrequencyRange | src/MainWindow.cpp:425-430 | with points, the x-axis spans their frequencies with a margin of 1 (linear scale) or from half the smallest to twice the largest (log scale); without points, or partially checked, it is unchanged |
| MainWindowModel.ScatterRatioRangeAsWritten | src/MainWindow.cpp:432 | as written: the y-axis spans the damping ratios with a margin of 0.1, and is undefined exactly when the list is empty |
| MainWindowModel.EmptiedPlotRatioRangeUndefined | src/MainWindow.cpp:399-416 | after clearing all points, or removing the only one, the unguarded y-range of scatterControlPoint is undefined |
| MainWindowModel.ScatterRatioRange | src/MainWindow.cpp:425-432 | guarded like the x-axis: with points, the y-axis spans the ratios with a margin of 0.1; without, it is unchanged |
| MainWindowModel.EmptiedPlotKeepsRatioRange | src/MainWindow.cpp:399-416 | with the guard, clearing all points or removing the only one leaves the y-axis unchanged |
| MainWindowModel.MainWindow.constructor | src/MainWindow.h:33-35 | the window holds the given curve and panel |
| MainWindowModel.MainWindow.AddType | src/MainWindow.cpp:198-250 | with \|ζ\| < 1e-4 or an unknown index nothing is added; otherwise one fresh mode of the panel's type, ω, ζ and parameters is appended |
| MainWindowModel.MainWindow.AddTypeLine | src/MainWindow.cpp:637-685 | a rejected line changes nothing; a taken one sets the panel and then adds exactly what addType() adds |
| MainWindowModel.MainWindow.AddTypeList | src/MainWindow.cpp:687-690 | the panel ends as after reading every line, and the modes grow by the lines that add one, the old ones kept in front |
| MainWindowModel.MainWindow.RemoveSelectedType | src/MainWindow.cpp:252-260 | the modes become the old list without the selected rows, in their old order |
| MainWindowModel.MainWindow.RemoveRows | src/MainWindow.cpp:256-257 | removing rows from the highest down leaves the list without exactly those rows |
| MainWindowModel.MainWindow.PerformFitting | src/MainWindow.cpp:443-476 | a failed scheme check changes nothing; otherwise all modes are cleared and the task starts exactly when the reference passes the guard |
| MainWindowModel.RowsAbove | src/MainWindow.cpp:256-257 | every row removed so far lies above the current one |
| MainWindowModel.RowsAll | src/MainWindow.cpp:256-257 | after the loop the removed rows are exactly the selected ones |
| MainWindowModel.RowSet | src/MainWindow.cpp:253 | the selected rows as a set |
| MainWindowModel.SortedSelection | src/MainWindow.cpp:253-255 | distinct selected rows, once sorted, ascend strictly and name the same rows |
| MainWindowModel.DistinctCount | src/MainWindow.cpp:253 | a selection without repeats holds each row at most once |
| MainWindowModel.CountTwice | src/MainWindow.cpp:253 | a row at two positions occurs twice in the multiset |
| FitSettingModel.Accept | src/FitSetting.cpp:23-32 | a value is stored exactly when it parses and passes its rule, and then unchanged |
| FitSettingModel.DefaultsAccepted | src/Scheme/OptimizerTuning.hpp:23-30 | the member initialisers pass every rule of the dialog |
| FitSettingModel.FitSettingDialog.constructor | src/FitSetting.cpp:7-13 | the dialog starts from the given setting |
| FitSettingModel.FitSettingDialog.ChangeBatchSize | src/FitSetting.cpp:23-32 | stores the batch size exactly when it parses and is ≥ 0; nothing else changes and acceptance is kept |
| FitSettingModel.FitSettingDialog.ChangeWeight | src/FitSetting.cpp:34-43 | stores the weight exactly when it parses and is ≥ 0 |
| FitSettingModel.FitSettingDialog.ChangeStepSize | src/FitSetting.cpp:45-54 | stores the step size exactly when it parses and is > 0 |
| FitSettingModel.FitSettingDialog.ChangeTolerance | src/FitSetting.cpp:56-65 | stores the tolerance exactly when it parses and is > 0 |
| FitSettingModel.FitSettingDialog.ChangeMaxOrder | src/FitSetting.cpp:67-76 | stores the max order exactly when it parses and is > 0 |
| FitSettingModel.FitSettingDialog.ChangeMaxIter | src/FitSetting.cpp:78-87 | stores the iteration limit exactly when it parses and is > 0 |
| DeltaBarDelta.NextStepSize | include/ensmallen_bits/delta_bar_delta/update_policies/delta_bar_delta_update.hpp:151-155 | the new step size is never below minStepSize, and is the sign-adapted value whenever that is not below it |
| DeltaBarDelta.Adapted | include/ensmallen_bits/delta_bar_delta/update_policies/delta_bar_delta_update.hpp:151-154 | with kappa ≥ 0, phi in [0, 1] and epsilon ≥ 0 the sign-adapted step size lies between (1 − phi)·epsilon and epsilon + kappa; SignTestRule gives each case |
| DeltaBarDelta.Averaged | include/ensmallen_bits/delta_bar_delta/update_policies/delta_bar_delta_update.hpp:157 | with theta in [0, 1] the new average lies between the old average and the new gradient |
| DeltaBarDelta.SignTestRule | include/ensmallen_bits/delta_bar_delta/update_policies/delta_bar_delta_update.hpp:151-154 | same strict signs add kappa, opposite signs give (1 − phi)·epsilon, a zero factor keeps epsilon |
| DeltaBarDelta.AverageBetween | include/ensmallen_bits/delta_bar_delta/update_policies/delta_bar_delta_update.hpp:157 | with theta in [0, 1] the new average stays within any bound both inputs obey |
| DeltaBarDelta.DescentDirection | include/ensmallen_bits/delta_bar_delta/update_policies/delta_bar_delta_update.hpp:158 | with a positive step size each parameter moves against the sign of its gradient |
| DeltaBarDelta.Policy.constructor | include/ensmallen_bits/delta_bar_delta/update_policies/delta_bar_delta_update.hpp:125-138 | copies the hyperparameters, zeroes deltaBar and fills epsilon with the initial step size |
| DeltaBarDelta.Policy.Update | include/ensmallen_bits/delta_bar_delta/update_policies/delta_bar_delta_update.hpp:147-159 | every step size becomes its adapted, clamped value; deltaBar becomes the running average; the iterate moves by −epsilon·delta with the new step sizes |
| DeltaBarDelta.Descend | include/ensmallen_bits/delta_bar_delta/update_policies/delta_bar_delta_update.hpp:158 | iterate −= epsilon % delta, entry by entry |
| MomentumDeltaBarDelta.DefaultUpdate | include/ensmallen_bits/delta_bar_delta/update_policies/momentum_delta_bar_delta_update.hpp:58-62 | kappa 0.2, phi 0.8, momentum 0.5, minGain 1e-8 |
| MomentumDeltaBarDelta.NextGain | include/ensmallen_bits/delta_bar_delta/update_policies/momentum_delta_bar_delta_update.hpp:136-139 | the gain is at least minGain; it is gain + kappa clamped when the signs differ and phi·gain clamped when they agree |
| MomentumDeltaBarDelta.AdaptedGain | include/ensmallen_bits/delta_bar_delta/update_policies/momentum_delta_bar_delta_update.hpp:136-138 | with kappa ≥ 0, phi in [0, 1] and a non-negative gain the sign-adapted gain lies between phi·gain and gain + kappa |
| MomentumDeltaBarDelta.NextVelocity | include/ensmallen_bits/delta_bar_delta/update_policies/momentum_delta_bar_delta_update.hpp:141 | a zero gradient leaves the decayed velocity; with stepSize·gain ≥ 0 the added part points against the gradient |
| MomentumDeltaBarDelta.FirstUpdate | include/ensmallen_bits/delta_bar_delta/update_policies/momentum_delta_bar_delta_update.hpp:121-142 | from gain 1 and velocity 0, a nonzero gradient gives gain 1 + kappa and a zero one gain phi (each clamped), and the velocity is the scaled gradient step |
| MomentumDeltaBarDelta.FirstMoveDescends | include/ensmallen_bits/delta_bar_delta/update_policies/momentum_delta_bar_delta_update.hpp:141 | from rest, the first velocity has the opposite sign of the gradient |
| MomentumDeltaBarDelta.Policy.constructor | include/ensmallen_bits/delta_bar_delta/update_policies/momentum_delta_bar_delta_update.hpp:111-123 | copies the hyperparameters, sets every gain to 1 and every velocity to 0 |
| MomentumDeltaBarDelta.Policy.Update | include/ensmallen_bits/delta_bar_delta/update_policies/momentum_delta_bar_delta_update.hpp:132-143 | every gain becomes its adapted, clamped value, the velocity becomes momentum·velocity − stepSize·gain·gradient, and the iterate moves by the velocity |
| Proximal.AbsAll | include/ensmallen_bits/fw/proximal/proximal_impl.hpp:38 | arma::abs, entry by entry |
| Proximal.SortDescending | include/ensmallen_bits/fw/proximal/proximal_impl.hpp:44 | sort(…, "descend") gives the same magnitudes in descending order |
| Proximal.InsertDescending | include/ensmallen_bits/fw/proximal/proximal_impl.hpp:44 | inserting into a descending list keeps it descending and adds exactly the entry |
| Proximal.CumSum | include/ensmallen_bits/fw/proximal/proximal_impl.hpp:45 | entry i of cumsum is the sum of the first i + 1 entries |
| Proximal.Search | include/ensmallen_bits/fw/proximal/proximal_impl.hpp:47-55 | the loop stops at the largest ρ with ν(ρ) > 0, or at 0 |
| Proximal.Nu | include/ensmallen_bits/fw/proximal/proximal_impl.hpp:52 | ν(r) > 0 exactly when cumsum(r) − τ < (r + 1)·s(r); ν(0) = τ |
| Proximal.Theta | include/ensmallen_bits/fw/proximal/proximal_impl.hpp:56 | the corrected threshold is s(ρ) − ν(ρ), so it lies below s(ρ) unless ρ = 0; ShrunkSortedSum and ThetaSplits state what it achieves |
| Proximal.ThetaAsWritten | include/ensmallen_bits/fw/proximal/proximal_impl.hpp:56 | the threshold as written is undefined exactly when ρ = 0, and otherwise is (ρ + 1)/ρ times the corrected one |
| Proximal.ProjectL1AsWritten | include/ensmallen_bits/fw/proximal/proximal_impl.hpp:36-66 | ProjectToL1Ball as written: inside the ball v is kept; it divides by zero exactly when the norm exceeds τ and the search ends at 0; otherwise the result has v's length |
| Proximal.SearchUnique | include/ensmallen_bits/fw/proximal/proximal_impl.hpp:47-55 | any ρ with those two properties is the one the loop finds |
| Proximal.SearchRho | include/ensmallen_bits/fw/proximal/proximal_impl.hpp:47-55 | the search loop returns Search's ρ |
| Proximal.Magnitudes | include/ensmallen_bits/fw/proximal/proximal_impl.hpp:38-44 | the sorted magnitudes are a descending permutation of \|v\| |
| Proximal.Soft | include/ensmallen_bits/fw/proximal/proximal_impl.hpp:59-65 | soft thresholding keeps the sign and gives magnitude max(\|x\| − θ, 0) |
| Proximal.Threshold | include/ensmallen_bits/fw/proximal/proximal_impl.hpp:59-65 | every entry soft-thresholded by θ |
| Proximal.ApplyThreshold | include/ensmallen_bits/fw/proximal/proximal_impl.hpp:59-65 | the thresholding loop leaves v equal to Threshold(old v, θ) |
| Proximal.ProjectL1 | include/ensmallen_bits/fw/proximal/proximal_impl.hpp:36-66 | the corrected projection keeps each entry's sign, and returns v unchanged when its L1 norm is at most τ |
| Proximal.ProjectL1AsWrittenMisses | include/ensmallen_bits/fw/proximal/proximal_impl.hpp:56 | as written, v = [2, 2] with τ = 2 becomes [0, 0], whose norm is 0, not τ; the corrected projection gives [1, 1] |
| Proximal.ProjectL1AsWrittenDividesByZero | include/ensmallen_bits/fw/proximal/proximal_impl.hpp:56 | as written, v = [3] with τ = 1 divides by ρ = 0 |
| Proximal.Shrink | include/ensmallen_bits/fw/proximal/proximal_impl.hpp:59-65 | each magnitude lowered by θ, floored at 0 |
| Proximal.ThresholdMagnitudes | include/ensmallen_bits/fw/proximal/proximal_impl.hpp:59-65 | the magnitudes of the thresholded vector are the shrunk magnitudes |
| Proximal.SumShrinkPermutation | include/ensmallen_bits/fw/proximal/proximal_impl.hpp:44 | sorting does not change the shrunk sum |
| Proximal.ThetaSplits | include/ensmallen_bits/fw/proximal/proximal_impl.hpp:47-56 | the magnitudes up to ρ lie above the corrected θ and the rest at or below it |
| Proximal.ShrunkSortedSum | include/ensmallen_bits/fw/proximal/proximal_impl.hpp:47-65 | shrinking the sorted magnitudes by the corrected θ leaves exactly τ |
| Proximal.SumShrinkGrows | include/ensmallen_bits/fw/proximal/proximal_impl.hpp:59-65 | a threshold at or below 0 gives a shrunk sum at least that of the threshold 0 |
| Proximal.ProjectL1Outside | include/ensmallen_bits/fw/proximal/proximal_impl.hpp:44-65 | outside the ball the projection is the soft threshold at θ of the sorted magnitudes |
| Proximal.ProjectL1OnSphere | include/ensmallen_bits/fw/proximal/proximal_impl.hpp:36-66 | for τ > 0 and v outside the ball the projection has L1 norm exactly τ |
| Proximal.ProjectL1Shrinks | include/ensmallen_bits/fw/proximal/proximal_impl.hpp:59-65 | outside the ball θ is positive and no entry grows in magnitude |
| Proximal.ProjectToL1Ball | include/ensmallen_bits/fw/proximal/proximal_impl.hpp:36-66 | the in-place method leaves v equal to the corrected projection of its old value |
| Proximal.ThresholdOfSearch | include/ensmallen_bits/fw/proximal/proximal_impl.hpp:44-65 | the θ from the search and cumsum gives the corrected projection |
| Proximal.ThetaFromCumSum | include/ensmallen_bits/fw/proximal/proximal_impl.hpp:45-56 | (cumsum(ρ) − τ)/(ρ + 1) at the searched ρ is the corrected θ |
| Proximal.Image | include/ensmallen_bits/fw/proximal/proximal_impl.hpp:75-79 | the indices an index list names, no more of them than the list's length |
| Proximal.ProjectL0 | include/ensmallen_bits/fw/proximal/proximal_impl.hpp:73-80 | hard thresholding keeps the length |
| Proximal.ProjectL0Sparse | include/ensmallen_bits/fw/proximal/proximal_impl.hpp:73-80 | at most τ entries remain nonzero |
| Proximal.ProjectL0KeepsLargest | include/ensmallen_bits/fw/proximal/proximal_impl.hpp:73-80 | the n − τ smallest in magnitude become 0, the others are kept, and none zeroed exceeds one kept |
| Proximal.ProjectToL0Ball | include/ensmallen_bits/fw/proximal/proximal_impl.hpp:73-80 | the in-place loop leaves v equal to the hard thresholding of its old value |

## Left out

- Objective.ObjectiveFunction.InitializeSampling requires at least one sample: with an empty sampling the min and max at src/Scheme/ObjectiveFunction.cpp:13-16 have no value, so that error path is not modelled. The fitting task can reach it when the sample count is 0 and the reference has two or more rows.
- The base class's default `s` (the identity) and `ds` (ones), at src/Scheme/ObjectiveFunction.cpp:3-5, are not modelled. Every scheme overrides them.
- Floating point is not modelled: there is no rounding, overflow, infinity or NaN. The division by zero in the L1 projection is shown as `None`. Where a closed form divides by zero (a Type 0, 1 or 3 mode at ω = −ωp), the value is undefined and the `Defined` predicate excludes it.
- Randomness becomes parameters. `randn` in run_optimizer is a sequence of draws, and the `randperm` of Shuffle is a permutation argument.
- Concurrency runs sequentially. `dd::parallel_for`, `std::async` and the `std::atomic` quit flag are modelled as plain loops and a field. The optimizer thread reading the flag while a checkpoint runs is not modelled.
- The optimizers (L-BFGS, gradient descent, augmented Lagrangian) are library code. Their result and the library defaults of their knobs are parameters.
- `interp1` is a library call; its result is a parameter of FitSamples. `sort_index` in ControlPoint::getSampling is stated as a sort-by-frequency with a multiset equality; which of several equal-frequency rows comes first is not pinned.
- Text: QString::number formatting, `toDouble` and the `command()` strings of the modes and the curve (src/DampingCurve.cpp:85-101) are left out. The model uses an abstract number format, and the round trips assume it writes no spaces.
- The interface: plotting (beyond the axis ranges of the control-point plot), saving and loading files, spin-box clamping of the panel values, message boxes, and the minX/maxX text that performFitting writes.
- The early-quit branch of performFitting for a task still running (src/MainWindow.cpp:448-458) is not modelled. The model starts from an idle task.
- Objective.ObjectiveFunction.EvaluateWithGradientBatch: the batch overload is defined only for Zero Day and Two Cities (Unicorn.h and ThreeWiseMen.h declare it, but there is no definition). The model's batch entry requires those two schemes and batchSize ≥ 1, because `cols(i, i + batchSize − 1)` underflows for 0.
- Family.S: the model requires a non-negative max order for Two Cities. With a negative max order, `s` yields negative orders, and the closed form (pow of a negative base) is outside the model.
- ObjectiveSpec and Objective require positive sample frequencies. The fit guard (src/MainWindow.cpp:465-468) ensures this for every fit.
- Proximal.ProjectL1 requires a non-empty v or τ ≥ 0. With an empty v and τ < 0 the source reads index −1 of an empty vector.
- ThreeWiseMen: ∂/∂γ is stated as a secant identity (GammaSecant, GammaEntryIsSlope) and not as a limit, because the model has no derivatives. ThreeWiseMen.GammaOfSecant does the same for ds(2).
- DampingModes: the general power law of `pow` (pow(a, b)·pow(a, c) = pow(a, b + c)) is not assumed. Type 1 and Type 4 are therefore related to Unicorn and to each other only through SignRules, T1SignRule and the definitions.
- MainWindowModel.PerformFitting covers performFitting up to the start of the task. performFittingTask is covered by FitSamples, FitTaskSetting and RunFit. A scheme name that names no scheme leaves `f` null in the source; the model stops there.
- DeltaBarDelta.NextStepSize and MomentumDeltaBarDelta.NextGain: the products of a sign mask with kappa, phi or 1 − phi (include/ensmallen_bits/delta_bar_delta/update_policies/delta_bar_delta_update.hpp:153-154, momentum_delta_bar_delta_update.hpp:136-138) are taken as real arithmetic. A relational mask has Armadillo's unsigned element type `uword`, and multiplying it by a scalar converts the scalar to that type. The defaults (kappa = phi = 0.2 for Delta-Bar-Delta, kappa = 0.2 and 1 − phi = 0.2 for the momentum variant) therefore become 0, and under the default parameters the step sizes and gains never change. The model keeps the real products the update rule describes.
- MainWindowModel.FitSamples requires count ≠ 1, and DampingCurves.LinearGrid, LogGrid, UpdateLinearDampingCurve and UpdateLogarithmicDampingCurve require samples ≠ 1. For one sample, updateLinearDampingCurve divides by samples − 1 = 0 (giving NaN, outside the real-number model), and what Armadillo's logspace returns for one point is a library detail not modelled.
- Proximal.ProjectToL0Ball requires 0 ≤ tau ≤ n. Outside that range the unsigned n − tau exceeds n and the source's loop indexes past the end of `indices`.
- RealMath.Trunc: unsigned(x) of a double x ≤ −1 is undefined in C++. The model takes the signed truncation there, which keeps the parity that the usual wrap-around gives, so the sign rules of DampingModes read a negative order as its truncation.
- The DeltaBarDeltaUpdate constructor's default minStepSize (1e-8) is a field of the hyperparameter datatype; no separate default value is modelled.

## Findings

| source | as written | input that shows it | evidently intended | confidence | as-written member | corrected member |
|---|---|---|---|---|---|---|
| include/ensmallen_bits/fw/proximal/proximal_impl.hpp:56 | θ = (cumsum(ρ) − τ)/ρ; the search at line 52 uses ρ + 1 | v = [2, 2], τ = 2 gives [0, 0], of norm 0 instead of 2; v = [3], τ = 1 divides by ρ = 0 | θ = (cumsum(ρ) − τ)/(ρ + 1) (Duchi et al., 2008), which lands on the sphere of radius τ | not executed | Proximal.ProjectL1AsWrittenMisses | Proximal.ProjectL1OnSphere |
| src/MainWindow.cpp:432 | scatterControlPoint sets the y-range from minDampingRatio and maxDampingRatio without the count() > 0 guard that the x-range has at line 425 | clearAllControlPoints (line 413) or removing the only point (line 405), then the call at line 415 or 408: `*min_element` of an empty vector dereferences end() | the y-range set only when there are points, like the x-range | not executed | MainWindowModel.EmptiedPlotRatioRangeUndefined | MainWindowModel.ScatterRatioRange |
| src/MainWindow.cpp:495-500 | the fit task copies step size, tolerance, weight and iteration limit from the dialog, but not max order or batch size | a max order of 3 set in the dialog reaches run_optimizer as 5 | every value the dialog holds reaches the optimizer and the objective | not executed | MainWindowModel.MaxOrderIgnored | MainWindowModel.FitTaskSettingCorrected |
