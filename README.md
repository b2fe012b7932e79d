# Nombus Configurator

A model of `Nombus::Configurator`, the holder of the two settings of the
nombus delimited-text tool:

- `column`: the 1-based column to work on, given as an Integer or as a
  string of decimal digits. The value is stored as given, so `'1'` stays the
  string `'1'`. In the model, a value that does not denote a positive whole
  number raises an error (see the modelling choice below).
- `column_index`: read-only. It is the column's integer value minus one. In
  the model it is recomputed from the current column on every read.
- `separator`: the field delimiter. The two-character literal backslash + `t`
  is translated to a horizontal tab. A plain space raises an error. In the
  model the result must also be exactly one character, otherwise an error is
  raised.

A Configurator is built from an already-loaded configuration mapping. In the
model both initial values go through the same checks as the setters.

Layout:

- `decimal.dfy`, module `Decimal`: digit strings and the natural numbers they
  denote (`Value`), the canonical rendering of a number (`Render`), and the
  facts that rendering reads back exactly and that every canonical digit
  string is the rendering of its value.
- `configurator.dfy`, module `Nombus`:
  - the mapping's scalars (`Int`, `Str`, and `Nil` for a missing key);
  - the two errors `InvalidColumn` and `InvalidSeparator`;
  - the pure checks `ToInteger`, `ValidColumn`, `NormalizeSeparator`, `ValidSeparator` and `ParseConfig`;
  - the class `Configurator`, whose setters overwrite its two fields in place;
  - `Examples`, a client method that replays each documented example against the class contracts.

The Ruby getters `column` and `separator` are reads of the class fields.
Setter errors are returned as an `Outcome` (`Pass` or `Fail(error)`) instead
of being raised. Construction is the static method `FromConfig`, which
returns `Ok(configurator)` or `Err(error)`.

The RSpec examples do not say whether a column of 0 or below is accepted;
the model rejects `0`, `'0'` and negative Integers as a modelling choice.

## Model

The method `Nombus.Examples` has no row: it is a client-side replay of the
examples at spec/nombus-configurator_spec.rb:9-43, each stated as an
assertion that follows from the contracts below, followed by two boundary
cases of the model (the empty and a two-character separator).

| member | source | states |
|---|---|---|
| `Nombus.ToInteger` | spec/nombus-configurator_spec.rb:10-16 | A column value has an integer exactly when it is an Integer (kept as is) or a non-empty all-digit string (e.g. not `'non-number'`). A string of k digits denotes a value in [0, 10^k). |
| `Nombus.DigitStringColumn` | spec/nombus-configurator_spec.rb:14-17 | Every natural number n written as decimal digits is read back as exactly n, and is an accepted column when n >= 1. The only canonical digit string that denotes n is its rendering. |
| `Decimal.ValueOfRender` | spec/nombus-configurator_spec.rb:14-17 | Reading back the decimal rendering of n gives n. This is the inverse relation behind digit-string columns. |
| `Decimal.RenderOfValue` | spec/nombus-configurator_spec.rb:14-17 | The converse: a digit string with no leading zero is exactly the rendering of the number it denotes, so a canonical digit-string column fixes its number and the number fixes the string. |
| `Nombus.NormalizeSeparator` | spec/nombus-configurator_spec.rb:30-43 | The input is accepted exactly when it is the tab escape literal or a single character other than a space. The tab escape literal becomes the one-character tab. Every other accepted input is kept unchanged. Every result is one character and not a space. |
| `Nombus.NormalizeSeparatorIdempotent` | spec/nombus-configurator_spec.rb:35-43 | A stored separator is accepted again as itself, so normalizing twice gives the same result as normalizing once. |
| `Nombus.ParseConfig` | spec/nombus-configurator_spec.rb:5-7 | From a mapping, the column entry is kept as given and the separator entry is normalized. The mapping is accepted exactly when both would pass their setters. A bad column gives `InvalidColumn`, checked first. Otherwise a missing, non-string or rejected separator gives `InvalidSeparator`. |
| `Nombus.ParseConfigIndex` | spec/nombus-configurator_spec.rb:5-7 | Accepted settings satisfy the object invariant. When the mapping's column is an Integer k, the stored column denotes k. |
| `Nombus.Configurator.constructor` | spec/nombus-configurator_spec.rb:6 | Stores the validated settings, so the object invariant holds from the start. |
| `Nombus.Configurator.FromConfig` | spec/nombus-configurator_spec.rb:5-7 | Succeeds exactly when `ParseConfig` does and reports the same error. On success it returns a fresh, valid object whose column is the mapping's entry. When that entry is an Integer k, its `ColumnIndex` is k - 1. |
| `Nombus.Configurator.ColumnIndex` | spec/nombus-configurator_spec.rb:20-27 | Returns a non-negative integer i such that the current column denotes i + 1. |
| `Nombus.Configurator.SetColumn` | spec/nombus-configurator_spec.rb:9-17 | Accepts exactly the values that denote a positive whole number. On acceptance it stores the value in its given representation. On rejection it returns `InvalidColumn(value)` and leaves the column unchanged. The separator and the object invariant are always kept. |
| `Nombus.Configurator.SetSeparator` | spec/nombus-configurator_spec.rb:30-43 | Accepts exactly what `NormalizeSeparator` accepts and stores its result. So `'\t'` is stored as a tab, `'|'` as `'|'`, and `' '` is refused. On rejection it returns `InvalidSeparator` and leaves the separator unchanged. The column and the object invariant are always kept. |

## Left out

- Reading the configuration file and parsing it as YAML. `FromConfig` takes the already-loaded mapping as a Dafny `map`.
- The test framework (`raise_error`, `should`, `be_an_integer`). Raised errors are modelled as `Fail`/`Err` results.
- `Nombus.ToInteger`: does not model Ruby's full `Integer()` conversion of strings (signs, surrounding whitespace, underscores, `0x`/`0b`/`0o` prefixes, leading `0` read as octal). Only non-empty strings of decimal digits are accepted, in base 10. The conversion is not exercised by the examples.
- Zero-padded digit strings are read in base 10 (`"010"` denotes 10, `"08"` denotes 8), where Ruby's `Integer()` would read `"010"` as octal 8 and reject `"08"`.
- Columns of 0 or below: the examples do not say whether they are accepted. The model rejects `0`, `'0'` and negative Integers as a modelling choice (`ValidColumn` requires a value of at least 1).
- Configuration values other than Integers, Strings and nil (Floats, Booleans and other YAML scalars) are not represented; Ruby's `Integer(2.0)` would accept a Float column.
- `Nombus.NormalizeSeparator` / `Nombus.Configurator.SetSeparator`: the model validates after translating, so it accepts a literal tab, a newline and every other one-character string except the space. Whether the program rejects other whitespace before translating is not shown.
- `Nombus.Configurator.SetSeparator`: its argument is limited to strings; Ruby's `separator=` can receive any object (nil, an Integer), which the model rejects only on the construction path (`ParseConfig` reports `InvalidSeparator` for a non-string mapping entry).
- Modelling choices the examples do not exercise: `ColumnIndex` follows later `SetColumn` writes; `NormalizeSeparator` rejects empty and multi-character strings; `FromConfig` validates both entries.
- The order in which construction reports two bad settings is not shown. The model checks the column first.
- The implementation file of the class is not part of this model. The model states the contract the RSpec examples assert; the choices listed here cover what the examples do not exercise.
- The downstream row processing and the command-line wiring are not part of this model.
