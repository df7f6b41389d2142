/**
  The meaning of the few Python `re` constructs that the inventory generator's two
  patterns use, stated as a relation: `Matches(r, s, i, j)` holds when `r` can match
  exactly the characters `s[i..j]`. `re.fullmatch(r, s)` succeeds exactly when some
  way of matching `r` spans the whole of `s`.
 */
module PyRegex {
  import opened Wrappers

  /** A bracketed character class such as `[a-z0-9-]`, as inclusive ranges. */
  type CharClass = seq<(char, char)>

  predicate InClass(cls: CharClass, c: char)
  {
    exists k | 0 <= k < |cls| :: cls[k].0 <= c <= cls[k].1
  }

  datatype Regex =
    | Class(cls: CharClass)                                // `[...]`: one character
    | Repeat(cls: CharClass, min: nat, max: Option<nat>)   // `[...]{min,max}`, or `[...]*` with no max
    | Concat(first: Regex, rest: Regex)                    // `first` followed by `rest`
    | NegLookahead(c: char)                                // `(?!c)`
    | NegLookbehind(c: char)                               // `(?<!c)`
    | StartAnchor                                          // `^` (no MULTILINE flag)
    | EndAnchor                                            // `$` (no MULTILINE flag)

  ghost predicate Matches(r: Regex, s: string, i: nat, j: nat)
    decreases r
  {
    i <= j <= |s| &&
    match r
    case Class(cls) => j == i + 1 && InClass(cls, s[i])
    case Repeat(cls, min, max) =>
      min <= j - i && (max.None? || j - i <= max.value) &&
      forall k | i <= k < j :: InClass(cls, s[k])
    case Concat(a, b) => exists m | i <= m <= j :: Matches(a, s, i, m) && Matches(b, s, m, j)
    case NegLookahead(c) => j == i && !(i < |s| && s[i] == c)
    case NegLookbehind(c) => j == i && !(0 < i && s[i - 1] == c)
    case StartAnchor => j == i && i == 0
    // `$` also matches just before a final newline
    case EndAnchor => j == i && (i == |s| || (i + 1 == |s| && s[i] == '\n'))
  }

  /** `re.fullmatch(r, s) != None` */
  ghost predicate FullMatch(r: Regex, s: string)
  {
    Matches(r, s, 0, |s|)
  }
}
