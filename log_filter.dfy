/** The screening decision of the replacement `console.log` / `console.info` installed by
    `createDriver`: the arguments are joined with single spaces and the call is forwarded only
    when the joined text contains none of three fixed markers. */
module LogFilter {

  /** The marker strings, compared case-sensitively. */
  const Markers: seq<string> := ["BROWSERSTACK", "accessKey", "userName"]

  /** The separator `args.join(' ')` puts between arguments. */
  const Separator: string := " "

  /** `sub` appears in `s` starting at index `i`. */
  ghost predicate OccursAt(s: string, sub: string, i: nat)
  {
    i + |sub| <= |s| && s[i..i + |sub|] == sub
  }

  /** Reference definition of a substring: some index where `sub` appears in `s`. */
  ghost predicate Occurs(s: string, sub: string)
  {
    exists i: nat :: OccursAt(s, sub, i)
  }

  /** `s.includes(sub)`: `sub` is a prefix of `s` or of some suffix of `s`. */
  predicate Includes(s: string, sub: string)
    decreases |s|
  {
    sub <= s || (|s| > 0 && Includes(s[1..], sub))
  }

  lemma {:induction false} OccurrenceIncluded(s: string, sub: string, i: nat)
    requires OccursAt(s, sub, i)
    ensures Includes(s, sub)
    decreases i
  {
    if i > 0 {
      assert s[1..][i - 1..i - 1 + |sub|] == s[i..i + |sub|];
      OccurrenceIncluded(s[1..], sub, i - 1);
    }
  }

  lemma {:induction false} IncludedOccurs(s: string, sub: string) returns (i: nat)
    requires Includes(s, sub)
    ensures OccursAt(s, sub, i)
    decreases |s|
  {
    if sub <= s {
      i := 0;
    } else {
      var j := IncludedOccurs(s[1..], sub);
      assert s[1..][j..j + |sub|] == s[j + 1..j + 1 + |sub|];
      i := j + 1;
    }
  }

  /** `Includes` agrees with the reference definition, in both directions. */
  lemma IncludesIff(s: string, sub: string)
    ensures Includes(s, sub) <==> Occurs(s, sub)
  {
    if Includes(s, sub) {
      var i := IncludedOccurs(s, sub);
    }
    if Occurs(s, sub) {
      var i: nat :| OccursAt(s, sub, i);
      OccurrenceIncluded(s, sub, i);
    }
  }

  /** `args.join(sep)`: the arguments in order, with `sep` between neighbours. */
  function Join(args: seq<string>, sep: string): (r: string)
  {
    if |args| == 0 then ""
    else if |args| == 1 then args[0]
    else args[0] + sep + Join(args[1..], sep)
  }

  /** Every argument appears, whole, in the joined text. */
  lemma {:induction false} ArgumentInJoin(args: seq<string>, sep: string, k: nat) returns (off: nat)
    requires k < |args|
    ensures off + |args[k]| <= |Join(args, sep)|
    ensures Join(args, sep)[off..off + |args[k]|] == args[k]
    decreases |args|
  {
    if |args| == 1 || k == 0 {
      off := 0;
    } else {
      var rest := Join(args[1..], sep);
      var o := ArgumentInJoin(args[1..], sep, k - 1);
      assert args[1..][k - 1] == args[k];
      off := |args[0]| + |sep| + o;
      assert Join(args, sep) == args[0] + sep + rest;
      assert Join(args, sep)[off..off + |args[k]|] == rest[o..o + |args[k]|];
    }
  }

  /** The filter's decision for one call: forward exactly when no marker is a substring of
      the space-joined message. */
  function Forwards(args: seq<string>): (r: bool)
    ensures r <==> forall k :: 0 <= k < |Markers| ==> !Occurs(Join(args, Separator), Markers[k])
  {
    var message := Join(args, Separator);
    IncludesIff(message, Markers[0]);
    IncludesIff(message, Markers[1]);
    IncludesIff(message, Markers[2]);
    !Includes(message, "BROWSERSTACK") && !Includes(message, "accessKey") && !Includes(message, "userName")
  }

  /** A substring found inside one part of a text is found in the whole text. */
  lemma OccursInside(whole: string, off: nat, part: string, sub: string, i: nat)
    requires off + |part| <= |whole| && whole[off..off + |part|] == part
    requires OccursAt(part, sub, i)
    ensures OccursAt(whole, sub, off + i)
  {
    forall t | 0 <= t < |sub|
      ensures whole[off + i..off + i + |sub|][t] == sub[t]
    {
      assert part[i + t] == whole[off + i + t];
    }
  }

  /** A marker anywhere inside any single argument drops the whole call. */
  lemma MarkerInArgumentDrops(args: seq<string>, k: nat, m: nat)
    requires k < |args| && m < |Markers|
    requires Occurs(args[k], Markers[m])
    ensures !Forwards(args)
  {
    var off := ArgumentInJoin(args, Separator, k);
    var i: nat :| OccursAt(args[k], Markers[m], i);
    OccursInside(Join(args, Separator), off, args[k], Markers[m], i);
  }

  /** A text that lacks some character of `sub` does not include `sub`. */
  lemma MissingCharacterExcludes(s: string, sub: string, j: nat)
    requires j < |sub| && sub[j] !in s
    ensures !Includes(s, sub)
  {
  }

  /** The comparison is case-sensitive: a message in which the upper-case letters of the
      markers ('B' of "BROWSERSTACK", 'K' of "accessKey", 'N' of "userName") do not appear is
      forwarded, so "browserstack accesskey username" and every other lower-case spelling pass. */
  lemma LowerCaseSpellingsPass(args: seq<string>)
    requires 'B' !in Join(args, Separator)
    requires 'K' !in Join(args, Separator)
    requires 'N' !in Join(args, Separator)
    ensures Forwards(args)
  {
    var message := Join(args, Separator);
    MissingCharacterExcludes(message, Markers[0], 0);
    MissingCharacterExcludes(message, Markers[1], 6);
    MissingCharacterExcludes(message, Markers[2], 4);
  }
}
