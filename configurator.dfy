/**
 The Configurator of nombus: a holder of the two validated settings of a
 delimited-text tool, the 1-based column to work on and the field separator.
 Each setter checks its value before it writes; a rejected value leaves the
 field as it was.
 */
module Nombus {
  import Decimal

  /** The configuration values the model represents: an Integer, a String, or nil for a missing key. */
  datatype Scalar = Int(n: int) | Str(s: string) | Nil

  /** The two validation errors, each carrying the offending value. */
  datatype ConfigError = InvalidColumn(given: Scalar) | InvalidSeparator(given: Scalar)

  datatype Option<T> = None | Some(value: T)

  /** What a setter reports: success, or the error it raises. */
  datatype Outcome = Pass | Fail(error: ConfigError)

  datatype Result<T> = Ok(value: T) | Err(error: ConfigError)

  /** Both settings of a Configurator, as taken from a configuration mapping. */
  datatype Settings = Settings(column: Scalar, separator: string)

  /** The two-character escape literal, a backslash followed by the letter t. */
  const TabEscape: string := "\\t"

  /** The single horizontal-tab character it stands for. */
  const Tab: string := "\t"

  // ---------------------------------------------------------------- column

  /**
   The integer a column setting denotes: an Integer as it is, a non-empty
   string of decimal digits by its base-10 value; anything else has none.
   */
  function ToInteger(v: Scalar): (r: Option<int>)
    ensures r.Some? <==> v.Int? || (v.Str? && Decimal.IsDecimal(v.s))
    ensures v.Int? ==> r == Some(v.n)
    ensures v.Str? && r.Some? ==> 0 <= r.value < Decimal.Pow10(|v.s|)
  {
    match v
    case Int(n) => Some(n)
    case Str(s) => if Decimal.IsDecimal(s) then Some(Decimal.Value(s)) else None
    case Nil => None
  }

  /** A column setting is valid when it denotes a positive whole number. */
  predicate ValidColumn(v: Scalar) {
    ToInteger(v).Some? && ToInteger(v).value >= 1
  }

  /**
   Every natural number written out in decimal digits is read back as itself,
   and every digit string without a leading zero is the rendering of the
   number it denotes.
   */
  lemma DigitStringColumn(n: nat)
    ensures ToInteger(Str(Decimal.Render(n))) == Some(n)
    ensures n >= 1 ==> ValidColumn(Str(Decimal.Render(n)))
    ensures forall s :: Decimal.IsCanonical(s) && ToInteger(Str(s)) == Some(n) ==> s == Decimal.Render(n)
  {
    Decimal.ValueOfRender(n);
    forall s | Decimal.IsCanonical(s) && ToInteger(Str(s)) == Some(n)
      ensures s == Decimal.Render(n)
    {
      Decimal.RenderOfValue(s);
    }
  }

  // ------------------------------------------------------------- separator

  /** A stored separator: exactly one character, and not the plain space. */
  predicate ValidSeparator(t: string) {
    |t| == 1 && t != " "
  }

  /**
   The separator to store for the string given: the tab escape literal is
   translated to a tab, every other string is kept; the result must then be
   a valid separator, otherwise there is none.
   */
  function NormalizeSeparator(s: string): (r: Option<string>)
    ensures r.Some? <==> s == TabEscape || ValidSeparator(s)
    ensures r.Some? ==> ValidSeparator(r.value)
    ensures s == TabEscape ==> r == Some(Tab)
    ensures s != TabEscape && r.Some? ==> r.value == s
  {
    var t := if s == TabEscape then Tab else s;
    if ValidSeparator(t) then Some(t) else None
  }

  /**
   Normalizing is idempotent: a stored separator is accepted again as it is,
   so re-setting the current separator changes nothing.
   */
  lemma NormalizeSeparatorIdempotent(s: string)
    ensures ValidSeparator(s) ==> NormalizeSeparator(s) == Some(s)
    ensures NormalizeSeparator(s).Some? ==>
              NormalizeSeparator(NormalizeSeparator(s).value) == NormalizeSeparator(s)
  {
  }

  // ------------------------------------------------------------ the mapping

  /** The value a mapping holds for a key, nil when the key is missing. */
  function Lookup(config: map<string, Scalar>, key: string): Scalar
  {
    if key in config then config[key] else Nil
  }

  /**
   The settings a configuration mapping gives: its "column" entry as it is
   and its "separator" entry normalized; the column is checked first.
   */
  function ParseConfig(config: map<string, Scalar>): (r: Result<Settings>)
    ensures var col, sep := Lookup(config, "column"), Lookup(config, "separator");
      && (r.Ok? <==> ValidColumn(col) && sep.Str? && NormalizeSeparator(sep.s).Some?)
      && (!ValidColumn(col) ==> r == Err(InvalidColumn(col)))
      && (ValidColumn(col) && r.Err? ==> r.error == InvalidSeparator(sep))
      && (r.Ok? ==> r.value.column == col && Some(r.value.separator) == NormalizeSeparator(sep.s))
  {
    var col, sep := Lookup(config, "column"), Lookup(config, "separator");
    if !ValidColumn(col) then Err(InvalidColumn(col))
    else if !sep.Str? then Err(InvalidSeparator(sep))
    else match NormalizeSeparator(sep.s)
      case None => Err(InvalidSeparator(sep))
      case Some(t) => Ok(Settings(col, t))
  }

  /**
   Accepted settings pass the same checks as the setters apply, and a mapping
   whose column is an Integer k yields a column that denotes k. This follows
   from the contracts above and is stated for the reader; no proof calls it.
   */
  lemma ParseConfigIndex(config: map<string, Scalar>)
    requires ParseConfig(config).Ok?
    ensures ValidColumn(ParseConfig(config).value.column)
    ensures ValidSeparator(ParseConfig(config).value.separator)
    ensures Lookup(config, "column").Int? ==>
              ToInteger(ParseConfig(config).value.column) == Some(Lookup(config, "column").n)
  {
  }

  // --------------------------------------------------------- the holder

  class Configurator {
    var column: Scalar
    var separator: string

    /** No invalid value is ever observably stored. */
    ghost predicate Valid()
      reads this
    {
      ValidColumn(column) && ValidSeparator(separator)
    }

    constructor (settings: Settings)
      requires ValidColumn(settings.column) && ValidSeparator(settings.separator)
      ensures Valid()
      ensures column == settings.column && separator == settings.separator
    {
      column := settings.column;
      separator := settings.separator;
    }

    /**
     Builds a Configurator from a loaded configuration mapping, or reports the
     error the first rejected setting raises.
     */
    static method FromConfig(config: map<string, Scalar>) returns (r: Result<Configurator>)
      ensures r.Ok? <==> ParseConfig(config).Ok?
      ensures r.Err? ==> r.error == ParseConfig(config).error
      ensures r.Ok? ==> fresh(r.value) && r.value.Valid()
      ensures r.Ok? ==> r.value.column == Lookup(config, "column")
      ensures r.Ok? ==> r.value.separator == ParseConfig(config).value.separator
      ensures r.Ok? && Lookup(config, "column").Int? ==>
                r.value.ColumnIndex() == Lookup(config, "column").n - 1
    {
      match ParseConfig(config)
      case Err(e) =>
        r := Err(e);
      case Ok(settings) =>
        var c := new Configurator(settings);
        r := Ok(c);
    }

    /** The 0-based index of the column: one less than the number it denotes. */
    function ColumnIndex(): (i: nat)
      reads this
      requires Valid()
      ensures ToInteger(column) == Some(i + 1)
    {
      ToInteger(column).value - 1
    }

    /**
     Stores the column as given (a digit string stays a string) when it
     denotes a positive whole number; otherwise raises InvalidColumn and
     leaves the column as it was.
     */
    method SetColumn(value: Scalar) returns (o: Outcome)
      requires Valid()
      modifies this`column
      ensures Valid()
      ensures o == if ValidColumn(value) then Pass else Fail(InvalidColumn(value))
      ensures column == if o.Pass? then value else old(column)
      ensures separator == old(separator)
    {
      if ValidColumn(value) {
        column := value;
        o := Pass;
      } else {
        o := Fail(InvalidColumn(value));
      }
    }

    /**
     Stores the normalized separator when the string given is accepted;
     otherwise raises InvalidSeparator and leaves the separator as it was.
     */
    method SetSeparator(value: string) returns (o: Outcome)
      requires Valid()
      modifies this`separator
      ensures Valid()
      ensures o.Pass? <==> NormalizeSeparator(value).Some?
      ensures o.Fail? ==> o.error == InvalidSeparator(Str(value))
      ensures separator == if o.Pass? then NormalizeSeparator(value).value else old(separator)
      ensures column == old(column)
    {
      match NormalizeSeparator(value)
      case Some(t) =>
        separator := t;
        o := Pass;
      case None =>
        o := Fail(InvalidSeparator(Str(value)));
    }
  }

  /**
   The documented examples, each on a Configurator freshly built from a
   well-formed mapping whose column is an Integer.
   */
  method Examples(config: map<string, Scalar>)
    requires ParseConfig(config).Ok? && Lookup(config, "column").Int?
  {
    var r := Configurator.FromConfig(config);
    var c := r.value;
    var o := c.SetColumn(Str("non-number"));
    assert !Decimal.IsDigit("non-number"[0]);
    assert o.Fail?;

    r := Configurator.FromConfig(config);
    c := r.value;
    o := c.SetColumn(Str("1"));
    assert o.Pass? && c.column == Str("1");

    r := Configurator.FromConfig(config);
    c := r.value;
    assert c.ColumnIndex() == Lookup(config, "column").n - 1;

    r := Configurator.FromConfig(config);
    c := r.value;
    o := c.SetSeparator(" ");
    assert o.Fail?;

    r := Configurator.FromConfig(config);
    c := r.value;
    o := c.SetSeparator("|");
    assert o.Pass? && c.separator == "|";

    r := Configurator.FromConfig(config);
    c := r.value;
    o := c.SetSeparator("\\t");
    assert o.Pass? && c.separator == "\t" && |c.separator| == 1;

    // Boundary cases of the model, beyond the documented examples: the empty
    // and the two-character string are refused and the tab stays stored.
    o := c.SetSeparator("");
    assert o.Fail?;
    o := c.SetSeparator("ab");
    assert o.Fail? && c.separator == "\t";
  }
}
