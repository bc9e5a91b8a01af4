/** Command-line words: prefixes, paths, and the value forms wrappers take
 * (dispatch/gate_rules.py).
 */
module Words {
  import opened Prelude

  type Token = string

  predicate StartsWith(s: string, prefix: string) {
    |prefix| <= |s| && s[..|prefix|] == prefix
  }

  function BeforeEquals(s: string): string {
    if s == "" || s[0] == '=' then "" else [s[0]] + BeforeEquals(s[1..])
  }

  function AfterEquals(s: string): string {
    if s == "" then "" else if s[0] == '=' then s[1..] else AfterEquals(s[1..])
  }

  /** The part after the last slash. */
  function Basename(path: string): string {
    if path == "" then ""
    else if path[|path| - 1] == '/' then ""
    else Basename(path[..|path| - 1]) + [path[|path| - 1]]
  }

  function StripSlashes(path: string): string {
    if path != "" && path[|path| - 1] == '/' then StripSlashes(path[..|path| - 1]) else path
  }

  // ---- paths ----

  function SplitPath(path: string): seq<string> {
    if path == "" then [""]
    else
      var rest := SplitPath(path[1..]);
      if path[0] == '/' then [""] + rest
      else if rest == [] then [[path[0]]] else [[path[0]] + rest[0]] + rest[1..]
  }

  /** Empty and `.` parts go, and `..` takes the part before it. */
  function NormParts(parts: seq<string>, done: seq<string>, rooted: bool): seq<string> {
    if parts == [] then done
    else
      var part := parts[0];
      if part == "" || part == "." then NormParts(parts[1..], done, rooted)
      else if part != ".." || (!rooted && done == []) || (done != [] && done[|done| - 1] == "..") then
        NormParts(parts[1..], done + [part], rooted)
      else NormParts(parts[1..], if done == [] then [] else done[..|done| - 1], rooted)
  }

  function JoinParts(parts: seq<string>): string {
    if parts == [] then "" else if |parts| == 1 then parts[0] else parts[0] + "/" + JoinParts(parts[1..])
  }

  /** Two leading slashes stay two; any other number of them is one root. */
  function NormPath(path: string): string {
    var root := if StartsWith(path, "//") && !StartsWith(path, "///") then "//" else if StartsWith(path, "/") then "/" else "";
    var norm := root + JoinParts(NormParts(SplitPath(path), [], root != ""));
    if norm == "" then "." else norm
  }

  function JoinPath(a: string, b: string): string {
    if StartsWith(b, "/") then b
    else if a == "" || a[|a| - 1] == '/' then a + b
    else a + "/" + b
  }

  // ---- value forms ----

  datatype Form = SignalName | Duration | SmallInt | TwoDigits | CpuList | Mask | Property

  predicate All(s: string, p: char -> bool) {
    forall i :: 0 <= i < |s| ==> p(s[i])
  }

  predicate IsDigit(c: char) {
    '0' <= c <= '9'
  }

  predicate IsLetter(c: char) {
    'a' <= c <= 'z' || 'A' <= c <= 'Z'
  }

  predicate IsNumber(s: string) {
    s != "" && All(s, IsDigit)
  }

  /** Digits, maybe a fraction. */
  predicate IsDecimal(s: string) {
    IsNumber(s) || exists i :: 0 < i < |s| && s[i] == '.' && IsNumber(s[..i]) && IsNumber(s[i + 1..])
  }

  predicate IsDuration(s: string) {
    IsDecimal(s) || (s != "" && s[|s| - 1] in {'s', 'm', 'h', 'd'} && IsDecimal(s[..|s| - 1]))
  }

  predicate IsSmallInt(s: string) {
    var digits := if s != "" && s[0] == '-' then s[1..] else s;
    1 <= |digits| <= 3 && All(digits, IsDigit)
  }

  predicate IsHex(c: char) {
    IsDigit(c) || 'a' <= c <= 'f' || 'A' <= c <= 'F'
  }

  predicate IsMask(s: string) {
    (1 <= |s| <= 64 && All(s, IsHex)) || (StartsWith(s, "0x") && 1 <= |s| - 2 <= 64 && All(s[2..], IsHex))
  }

  /** Up to 128 numbers of up to four digits, separated by commas or dashes. */
  predicate IsCpuNumbers(s: string, most: nat)
    decreases |s|
  {
    most > 0 &&
    ((1 <= |s| <= 4 && All(s, IsDigit))
     || exists i :: 1 <= i <= 4 && i < |s| && All(s[..i], IsDigit) && s[i] in {',', '-'} && IsCpuNumbers(s[i + 1..], most - 1))
  }

  predicate IsCpuList(s: string) {
    s == "all" || IsCpuNumbers(s, 128)
  }

  predicate IsSignal(s: string) {
    1 <= |s| <= 10 && All(s, c => 'A' <= c <= 'Z' || IsDigit(c))
  }

  predicate IsProperty(s: string) {
    && '=' in s
    && BeforeEquals(s) in {"MemoryMax", "MemoryHigh", "MemorySwapMax", "CPUQuota", "CPUWeight", "TasksMax", "IOWeight"}
    && 1 <= |AfterEquals(s)| <= 20
    && All(AfterEquals(s), c => IsLetter(c) || IsDigit(c) || c == '.' || c == '%')
  }

  predicate IsEnvKey(s: string) {
    1 <= |s| <= 64 && (IsLetter(s[0]) || s[0] == '_') && All(s[1..], c => IsLetter(c) || IsDigit(c) || c == '_')
  }

  predicate HasForm(s: string, form: Form) {
    match form
    case SignalName => IsSignal(s)
    case Duration => IsDuration(s)
    case SmallInt => IsSmallInt(s)
    case TwoDigits => 1 <= |s| <= 2 && All(s, IsDigit)
    case CpuList => IsCpuList(s)
    case Mask => IsMask(s)
    case Property => IsProperty(s)
  }

  function DigitsValue(s: string): nat
    requires All(s, IsDigit)
  {
    if s == "" then 0 else 10 * DigitsValue(s[..|s| - 1]) + (s[|s| - 1] - '0') as nat
  }

  /** A signed decimal integer. */
  function ParseInt(s: string): Option<int> {
    var digits := if s != "" && (s[0] == '+' || s[0] == '-') then s[1..] else s;
    if !IsNumber(digits) then None
    else
      var value: int := DigitsValue(digits);
      Some(if s[0] == '-' then -value else value)
  }
}
