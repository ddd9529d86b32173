/**
 * The calculator's operation tag: the four-case enumeration, its
 * case-insensitive parser, its printer and its mathematical symbol.
 */
module Operations {
  import opened Wrappers

  datatype Operation = Add | Subtract | Multiply | Divide

  const UnsupportedPrefix: string := "Unsupported operation: "

  /** `char.ToLowerInvariant` on the ASCII letters; every other character is kept. */
  function LowerChar(c: char): (l: char)
    ensures !('A' <= l <= 'Z')
    ensures 'a' <= c <= 'z' ==> l == c
  {
    if 'A' <= c <= 'Z' then (c as int - 'A' as int + 'a' as int) as char else c
  }

  /** `string.ToLowerInvariant`: each character lowered in place. */
  function ToLowerInvariant(s: string): (r: string)
    ensures |r| == |s|
    ensures forall i :: 0 <= i < |s| ==> r[i] == LowerChar(s[i])
  {
    seq(|s|, i requires 0 <= i < |s| => LowerChar(s[i]))
  }

  /** Two strings equal up to the case of their letters. */
  predicate EqualsIgnoreCase(s: string, t: string) {
    ToLowerInvariant(s) == ToLowerInvariant(t)
  }

  /** The enumeration member's name, which is what `ToString` prints. */
  function ToStringValue(op: Operation): (name: string)
    ensures name != [] && 'A' <= name[0] <= 'Z'
  {
    match op
    case Add => "Add"
    case Subtract => "Subtract"
    case Multiply => "Multiply"
    case Divide => "Divide"
  }

  /**
   * Parses an operation name ignoring case; any other text is an
   * `ArgumentException` whose message quotes the text as given.
   */
  function ToOperation(operation: string): (r: Result<Operation, string>)
    ensures r.Failure? ==> r.error == UnsupportedPrefix + operation
  {
    var lower := ToLowerInvariant(operation);
    if lower == "add" then Success(Add)
    else if lower == "subtract" then Success(Subtract)
    else if lower == "multiply" then Success(Multiply)
    else if lower == "divide" then Success(Divide)
    else Failure(UnsupportedPrefix + operation)
  }

  /** The mathematical symbol of an operation; the source's `"?"` fallback cannot be reached. */
  function ToSymbol(op: Operation): (symbol: string)
    ensures |symbol| == 1 && symbol != "?"
  {
    match op
    case Add => "+"
    case Subtract => "-"
    case Multiply => "*"
    case Divide => "/"
  }

  /** Lowering twice is lowering once. */
  lemma LowerIdempotent(s: string)
    ensures ToLowerInvariant(ToLowerInvariant(s)) == ToLowerInvariant(s)
  {
    var l := ToLowerInvariant(s);
    var ll := ToLowerInvariant(l);
    assert |ll| == |l|;
    forall i | 0 <= i < |l| ensures ll[i] == l[i] {
      assert 'a' <= l[i] <= 'z' || !('A' <= l[i] <= 'Z');
    }
  }

  /** A string lowers to `t` when it lowers to `t` character by character. */
  lemma LowersTo(s: string, t: string)
    requires |s| == |t| && forall i :: 0 <= i < |s| ==> LowerChar(s[i]) == t[i]
    ensures ToLowerInvariant(s) == t
  {
  }

  /** Printing then parsing gives the operation back. */
  lemma ParsePrintRoundTrip(op: Operation)
    ensures ToOperation(ToStringValue(op)) == Success(op)
  {
  }

  /**
   * `ToOperation` accepts exactly the spellings of the four names that differ
   * from them in letter case, and returns the operation so named.
   */
  lemma ParseAcceptsExactlyNames(s: string, op: Operation)
    ensures ToOperation(s) == Success(op) <==> EqualsIgnoreCase(s, ToStringValue(op))
  {
  }

  /** Parsing ignores case: strings equal up to case parse to the same operation or both fail. */
  lemma ParseIgnoresCase(s: string, t: string)
    requires EqualsIgnoreCase(s, t)
    ensures ToOperation(s).Success? <==> ToOperation(t).Success?
    ensures ToOperation(s).Success? ==> ToOperation(s).value == ToOperation(t).value
  {
  }

  /** In particular the lower-case form parses as the original does. */
  lemma ParseLowered(s: string)
    ensures ToOperation(ToLowerInvariant(s)).Success? <==> ToOperation(s).Success?
    ensures ToOperation(s).Success? ==> ToOperation(ToLowerInvariant(s)) == ToOperation(s)
  {
    LowerIdempotent(s);
  }

  /** Distinct operations have distinct symbols and distinct names. */
  lemma SymbolsAndNamesInjective(a: Operation, b: Operation)
    ensures ToSymbol(a) == ToSymbol(b) ==> a == b
    ensures ToStringValue(a) == ToStringValue(b) ==> a == b
  {
  }
}
