# Nested-list Array container and scalar activation functions

A Dafny model of two parts of a small machine-learning experiment written in Python.

- **The `Array` container** (`Python/Util/DataStructures.py`). It wraps a nested Python list.
  It checks its input when it is built, and it offers `shape()` and `str()`.
- **The exact-arithmetic activation functions** (`Python/Math/ActivationFunctions.py`).
  These are `Linear`, `BinaryStep`, `ReLU`, `LeakyReLU`, `PReLU` and `SoftSign`, each with its `gradient`, over real numbers.

## Files

- `pyvalues.dfy`, module `PyValues`: the Python values the container sees.
  - `PyVal` has the cases `PInt`, `PFloat`, `PStr`, `POther`, `PList` and `PTuple`. A tuple can be subscripted, measured and iterated like a list, but it is no list to `isinstance`.
  - `Result<T>` is either a returned value `Ok` or `Crash`. `Crash` means the interpreter itself raised an exception: `IndexError`, `TypeError` or `RecursionError`.
  - `Subscript0` is Python's `v[0]`. On a list or a tuple it gives the first element, and on a `str` a one-character `str`. On an int, a float, an empty list or tuple and any other object it raises.
- `data_structures.dfy`, module `DataStructures`: the container.
  - **Specification functions**: `Equal`, `IntArray`/`IntArrayFrom`, `Construction`, `Format`/`FormatFrom` and `ShapeOf`.
  - **Methods that run loops the way the source does**: `AssertEquality`, `AssertIntArray` and `FormatArray`. Each is proved equal to its specification function.
  - **`Validate`** runs the type gate and then those two check methods in the constructor's order. It is proved equal to `Construction`.
  - **The class `Array`**. Its field `contents` is a `const`: `__init__` sets it once and no method changes it afterwards.
  - **Lemmas** about all of the above.
- `activation_functions.dfy`, module `ActivationFunctions`: the scalar functions and their gradients.

## How construction behaves

`Array(v)` runs three checks in order. Each one can raise.

1. **The type gate.** A `v` that is neither a list nor an int raises "Invalid array passed".
2. **The equality check** (`__assert_equality`). It compares each list element with the length of the *first* element. It stops at the first element that is not a list, and it recurses into each list element on its own. So `[[[1,2],[3,4]],[[5],[6]]]` passes, although it is not rectangular. `[[1,2],[3]]` fails with "Unequal array passed".
3. **The leaf-type check** (`__assert_int_array`). Only the first element decides the branch:
   - a number first: the list (or tuple) passes iff all its elements are ints or all are floats;
   - a list first: every element is checked on its own, so `[[1,2],[1.5,2.5]]` passes;
   - anything else first: the check fails, with "Array contains non-integers".

   This check indexes `array[0]`, so it raises on a bare int and on an empty list. Neither can ever become an `Array`.

A tuple stops the equality check like any other non-list element, and the leaf-type check then looks inside it. So `[[1,2],(3,4)]` is constructed.

`shape()` follows first elements down and lists the length at each level. It raises if that path ends in a float rather than an int.

`str()` renders a list of lists as an opening bracket, one child per line at the next depth, and a closing bracket. It renders any other list on one line, with Python's `str`. Every line at depth `d` starts with `d` spaces.

Where the code does less than a rectangular array with a single leaf type would need, the model follows the code:
- **Sibling shapes.** The code does not enforce full rectangularity.
- **Leaf types.** It does not enforce one leaf type over the whole structure.
- **Empty lists.** It does not accept a bare empty list; it raises `IndexError` on one.

## Model

| member | source | states |
|---|---|---|
| `DataStructures.Validate` | Python/Util/DataStructures.py:6-14 | runs the type gate, the equality check and the leaf-type check in the constructor's order; its outcome is `Construction(v)` |
| `DataStructures.Array.Create` | Python/Util/DataStructures.py:6-17 | an object exists exactly when `Construction(v)` is `Constructed`; it is fresh and holds `v` unchanged |
| `DataStructures.Array.FromChecked` | Python/Util/DataStructures.py:17 | stores the input once every check has passed; the object is then valid |
| `DataStructures.TypeGateFirst` | Python/Util/DataStructures.py:7-8 | "Invalid array passed" happens exactly for inputs that are neither list nor int, before any other check |
| `DataStructures.AssertEquality` | Python/Util/DataStructures.py:34-58 | the looping check with early returns agrees with `Equal`: true for an int or an empty list; otherwise every element up to the first non-list one has the first element's length and passes itself |
| `DataStructures.LeadingLists` | Python/Util/DataStructures.py:46-49 | counts the leading list elements: all elements before the count are lists, and the one at the count is not |
| `DataStructures.SiblingMismatchIsUnequal` | Python/Util/DataStructures.py:44-53 | a list element of the wrong length, with only lists before it, makes construction fail with "Unequal array passed" |
| `DataStructures.EqualIgnoresRest` | Python/Util/DataStructures.py:46-49 | once a non-list element is met, whatever follows cannot change the equality check's answer |
| `DataStructures.RaggedGrandchildrenAccepted` | Python/Util/DataStructures.py:46-56 | `[[[1,2],[3,4]],[[5],[6]]]` is constructed and has shape `[2,2,2]`, although it is no rectangular grid of any dimensions |
| `DataStructures.AssertIntArray` | Python/Util/DataStructures.py:19-32 | the looping leaf-type check, early returns and raises included, agrees with `IntArray` |
| `DataStructures.IntArrayOfLeaves` | Python/Util/DataStructures.py:20-21 | with a number as first element, the check never raises, and passes iff all elements are ints or all are floats |
| `DataStructures.IntArrayOfLists` | Python/Util/DataStructures.py:27-32 | with a list as first element, the check passes iff every element passes it on its own |
| `DataStructures.MixedBranchesAccepted` | Python/Util/DataStructures.py:27-32 | `[[1,2],[1.5,2.5]]` is constructed, with shape `[2,2]` |
| `DataStructures.TrailingIntCrashes` | Python/Util/DataStructures.py:19-28 | `[[1,2],3]` passes the equality check, then the leaf-type check raises on `3[0]` |
| `DataStructures.MixedLeavesRejected` | Python/Util/DataStructures.py:13-21 | `[1, 2.5]` fails with "Array contains non-integers" |
| `DataStructures.ConstructedIsNonEmptyList` | Python/Util/DataStructures.py:10-20 | only a non-empty list is ever constructed; a bare int and `[]` pass the equality check, then raise at `array[0]` |
| `DataStructures.GridIsConstructed` | Python/Util/DataStructures.py:10-81 | a rectangular input with no empty level and one leaf kind is constructed; its shape is its dimensions for int leaves and raises for float leaves |
| `DataStructures.FormatArray` | Python/Util/DataStructures.py:63-72 | the renderer, extending its string once per element, agrees with `Format`, raises included |
| `DataStructures.ConstructedFormats` | Python/Util/DataStructures.py:60-72 | rendering a constructed input never raises, at any depth |
| `DataStructures.FormatShift` | Python/Util/DataStructures.py:63-72 | for a renderer that never yields a line break, rendering at depth `d + e` is rendering at depth `d` with `e` more spaces at the start of every line; it raises exactly when that one does |
| `DataStructures.FormatRendersOnlyNumbers` | Python/Util/DataStructures.py:63-72 | on an input the leaf-type check accepts, `str` is only applied to lists and tuples whose elements are all ints or all floats, so two renderers that agree on those give the same rendering |
| `DataStructures.ConstructedShift` | Python/Util/DataStructures.py:60-72 | for a constructed input and a `str` that puts no line break in a list or tuple of numbers, rendering at depth `d + e` is rendering at depth `d` with `e` more spaces at the start of every line |
| `DataStructures.Array.ToString` | Python/Util/DataStructures.py:60-61 | `str` of an object is its depth-0 rendering and always exists |
| `DataStructures.ShapeOf` | Python/Util/DataStructures.py:77-81 | `__shape` succeeds only on a list or tuple; its result starts with that value's length, and no entry is 0 |
| `DataStructures.ShapeFollowsFirstPath` | Python/Util/DataStructures.py:77-81 | `__shape` succeeds iff the input is a list or tuple whose first-element path ends in an int; the result has one entry per list or tuple on that path, each that one's length, the first being the top-level length |
| `DataStructures.Array.Shape` | Python/Util/DataStructures.py:74-75 | `shape()` on an object is defined iff its first-element path ends in an int; the result has that path's depth, and its entry at each level is the length of the list reached there |
| `DataStructures.TupleElementAccepted` | Python/Util/DataStructures.py:19-58 | `[[1,2],(3,4)]` is constructed with shape `[2,2]`, since the tuple ends the equality check and passes the leaf-type check; `[(1,2)]` fails with "Array contains non-integers" |
| `ActivationFunctions.Linear` | Python/Math/ActivationFunctions.py:9-10 | returns its input unchanged |
| `ActivationFunctions.BinaryStep` | Python/Math/ActivationFunctions.py:20-21 | is 0 or 1, and 1 exactly when `x >= 0` |
| `ActivationFunctions.BinaryStepGradient` | Python/Math/ActivationFunctions.py:23-24 | is the slope of the step between any two points on the same side of 0 |
| `ActivationFunctions.ReLU` | Python/Math/ActivationFunctions.py:60-61 | is `max(0, x)`: non-negative, at least `x`, one of the two, and `x` for `x >= 0` |
| `ActivationFunctions.ReLUGradient` | Python/Math/ActivationFunctions.py:63-64 | is 0 or 1, 1 exactly for `x >= 0` (0 included), and the slope of ReLU on the piece `x` lies on |
| `ActivationFunctions.PReLU` | Python/Math/ActivationFunctions.py:120-121 | leaves non-negative inputs alone; with coefficient 0 it is ReLU, with coefficient 1 the identity, and with a coefficient between 0 and 1 it lies between the identity and ReLU |
| `ActivationFunctions.PReLUGradient` | Python/Math/ActivationFunctions.py:120-124 | is `alpha` or 1, 1 for `x >= 0`, and the slope of PReLU on the piece `x` lies on |
| `ActivationFunctions.LeakyReLU` | Python/Math/ActivationFunctions.py:107-108 | agrees with PReLU at every input, although it tests `x <= 0` where PReLU tests `x < 0` |
| `ActivationFunctions.LeakyReLUGradient` | Python/Math/ActivationFunctions.py:110-111 | agrees with PReLU's gradient, and is the slope of LeakyReLU on the piece `x` lies on |
| `ActivationFunctions.PiecewiseLinearThroughZero` | Python/Math/ActivationFunctions.py:107-124 | ReLU, LeakyReLU and PReLU each equal their gradient times the input |
| `ActivationFunctions.LeakyReLUDefault` | Python/Math/ActivationFunctions.py:104-108 | with the default coefficient 0.01, negative inputs are divided by 100 and the rest pass unchanged |
| `ActivationFunctions.SoftSign` | Python/Math/ActivationFunctions.py:50-51 | SoftSign is strictly between -1 and 1, and has the sign of its input |
| `ActivationFunctions.SoftSignOdd` | Python/Math/ActivationFunctions.py:50-51 | SoftSign of `-x` is minus SoftSign of `x` |
| `ActivationFunctions.SoftSignIncreasing` | Python/Math/ActivationFunctions.py:50-51 | SoftSign is strictly increasing |
| `ActivationFunctions.SoftSignGradient` | Python/Math/ActivationFunctions.py:53-54 | the gradient `1/(1+|x|)^2` lies in (0, 1] and equals 1 only at 0 |
| `ActivationFunctions.SoftSignSecant` | Python/Math/ActivationFunctions.py:50-54 | between two inputs of one sign, SoftSign rises by the difference times `1/((1+|x|)(1+|y|))`; at `y = x` that factor is the gradient |

## Left out

- Python's `str()` of a list or value is a parameter, `render`, of the renderer. The model does not spell out how Python prints numbers.
- `FormatShift` assumes a renderer that never yields a line break for any value. Python's `str` of a `str` holding a line break does yield one, so `FormatShift` does not apply to Python's `str` as it stands. `ConstructedShift` covers that case: it needs only that a list or tuple of numbers (all ints or all floats) renders on one line, which holds for Python's `str`.
- `DataStructures.Array.ToString`, `DataStructures.Array.Shape`: `__init__` stores the caller's list by reference (line 17), but `contents` is an immutable value here. The guarantees hold only if the caller does not mutate that list afterwards. For example, after `lst = [[1,2]]; A = Array(lst); lst[0] = []`, both `str(A)` and `A.shape()` raise, which the model cannot express.
- Python's recursion limit is not modelled. Input nested about 1000 levels deep makes `__assert_equality` raise `RecursionError`, while `Construction` answers by the checks alone.
- Dicts and other objects that define `__getitem__` or `__iter__` themselves (apart from `str`, lists and tuples) are `POther`. The model treats them as not subscriptable. A list holding, say, `{0: 1}` after a leading list would reach such an object's own `[0]` in the leaf-type check.
- The exceptions the interpreter raises (`IndexError`, `TypeError`, `RecursionError`) are all one case, `Crash`. The model does not tell them apart.
- `ShapeOf` of a `str` is `Crash` without running the recursion. An empty string raises `IndexError`; a non-empty one ends in `RecursionError`, because `"a"[0] == "a"`.
- Python booleans are not distinguished: `bool` is a subclass of `int`, and the model treats only exact ints as `PInt`.
- The `print("here1")` and `print("here2")` calls in `__assert_int_array` are debugging output and are not modelled.
- `Linear.gradient` is not modelled. It returns `x.shape()`, a placeholder that raises on a scalar.
- `Sigmoid`, `Tanh`, `SoftPlus`, `ELU`, `SELU`, `SiLU` and `Sinusoid` are not modelled. They use `math.e **`, `log`, `sin` and `cos`, which are floating-point numerics. The source has defects there:
  - `Sigmoid` computes `1 / 1 + e^-x`, an operator-precedence error;
  - `SELU` calls `ELU(x)` on a constructor that takes no argument;
  - `SELU.gradient` uses ELU's default coefficient 0.2 instead of `self.alpha`.
- The `Softmax` stub has no body to model.
- Elementwise application over an `Array` is not modelled. The annotations name `Array`, but every body compares and computes on a scalar.
- The display names returned by each activation class's `__str__` are not modelled; they are for diagnostics only.
- `Math/ActivationFunctions.h` is not part of this model. It is built on Eigen vectors and `exp`.
- Floating-point rounding is not modelled. The activation functions are exact over `real`, and floats inside arrays are only type-tested.
