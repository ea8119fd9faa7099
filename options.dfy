/**
 * The option translation of `newProvider` (provider.go:52-64): two
 * recognised override keys become dns01 challenge options.
 */
module DnsOptions {

  const DisableCPKey := "LEGO_DISABLE_CP"
  const ResolversKey := "LEGO_DNS_RESOLVERS"

  /** The dns01 options this layer may request; their effect lies outside the model. */
  datatype ChallengeOption =
    | DisableCompletePropagation               // dns01.DisableCompletePropagationRequirement()
    | RecursiveNameservers(servers: seq<string>)  // dns01.AddRecursiveNameservers(servers)

  /** ASCII lower-casing of one character. */
  function LowerChar(c: char): char
  {
    if 'A' <= c <= 'Z' then (c as int - 'A' as int + 'a' as int) as char else c
  }

  /** `strings.ToLower`, on ASCII letters only. */
  function ToLower(s: string): (r: string)
    ensures |r| == |s|
    ensures forall i :: 0 <= i < |s| ==> r[i] == LowerChar(s[i])
  {
    if s == [] then [] else [LowerChar(s[0])] + ToLower(s[1..])
  }

  /** The test on the value of `LEGO_DISABLE_CP`. */
  predicate DisablesCP(value: string)
  {
    ToLower(value) == "true" || value == "1"
  }

  /**
   * The test spelled out letter by letter: the value is "1", or it is the
   * four letters t, r, u, e, each in either case.
   */
  lemma DisablesCPIff(value: string)
    ensures DisablesCP(value) <==>
      value == "1" ||
      (|value| == 4 && value[0] in "tT" && value[1] in "rR" && value[2] in "uU" && value[3] in "eE")
  {
  }

  /** "TRUE", "true", "tRuE" and "1" turn the option on. */
  lemma DisablesCPAccepts()
    ensures DisablesCP("TRUE") && DisablesCP("true") && DisablesCP("tRuE") && DisablesCP("1")
  {
    DisablesCPIff("TRUE");
    DisablesCPIff("true");
    DisablesCPIff("tRuE");
  }

  /** "false", "yes", "01" and "" do not. */
  lemma DisablesCPRejects()
    ensures !DisablesCP("false") && !DisablesCP("yes") && !DisablesCP("01") && !DisablesCP("")
  {
    DisablesCPIff("false");
    DisablesCPIff("yes");
    DisablesCPIff("01");
  }

  /** Number of commas in `s`. */
  function CommaCount(s: string): nat
  {
    if s == [] then 0 else (if s[0] == ',' then 1 else 0) + CommaCount(s[1..])
  }

  /**
   * `strings.Split(s, ",")`: the pieces between commas, in order, empty
   * pieces kept; "" gives [""].
   */
  function Split(s: string): (parts: seq<string>)
    ensures |parts| >= 1
    ensures forall i :: 0 <= i < |parts| ==> ',' !in parts[i]
  {
    if s == [] then [""]
    else
      var rest := Split(s[1..]);
      if s[0] == ',' then [""] + rest
      else [[s[0]] + rest[0]] + rest[1..]
  }

  /** `strings.Join(parts, ",")`. */
  function Join(parts: seq<string>): string
  {
    if |parts| == 0 then ""
    else if |parts| == 1 then parts[0]
    else parts[0] + "," + Join(parts[1..])
  }

  /** One piece for every comma, plus one. */
  lemma {:induction false} SplitCount(s: string)
    ensures |Split(s)| == CommaCount(s) + 1
  {
    if s != [] {
      SplitCount(s[1..]);
    }
  }

  /** Joining the pieces with "," gives the original value back. */
  lemma {:induction false} JoinSplit(s: string)
    ensures Join(Split(s)) == s
  {
    if s != [] {
      var rest := Split(s[1..]);
      JoinSplit(s[1..]);
      if s[0] == ',' {
        assert Join([""] + rest) == "" + "," + Join(rest);
      } else {
        JoinConsChar(s[0], rest);
      }
    }
  }

  /** Putting a character in front of the first piece puts it in front of the joined string. */
  lemma {:induction false} JoinConsChar(c: char, parts: seq<string>)
    requires |parts| >= 1
    ensures Join([[c] + parts[0]] + parts[1..]) == [c] + Join(parts)
  {
  }

  /** A comma-free string is a single piece. */
  lemma {:induction false} SplitNoComma(a: string)
    requires ',' !in a
    ensures Split(a) == [a]
  {
    if a != [] {
      SplitNoComma(a[1..]);
      assert [a[0]] + a[1..] == a;
    }
  }

  /** A comma-free prefix followed by a comma is the first piece. */
  lemma {:induction false} SplitAfterPiece(a: string, b: string)
    requires ',' !in a
    ensures Split(a + "," + b) == [a] + Split(b)
  {
    if a == [] {
      assert a + "," + b == [','] + b;
      assert ([','] + b)[1..] == b;
    } else {
      var s := a + "," + b;
      assert s[1..] == a[1..] + "," + b;
      SplitAfterPiece(a[1..], b);
      assert [a[0]] + a[1..] == a;
    }
  }

  /** Splitting a join of comma-free pieces gives the pieces back. */
  lemma {:induction false} SplitJoin(parts: seq<string>)
    requires |parts| >= 1
    requires forall i :: 0 <= i < |parts| ==> ',' !in parts[i]
    ensures Split(Join(parts)) == parts
  {
    if |parts| == 1 {
      SplitNoComma(parts[0]);
    } else {
      SplitJoin(parts[1..]);
      SplitAfterPiece(parts[0], Join(parts[1..]));
      assert [parts[0]] + parts[1..] == parts;
    }
  }

  /** A two-address list, a trailing comma, and the empty value. */
  lemma SplitExamples()
    ensures Split("1.1.1.1,8.8.8.8") == ["1.1.1.1", "8.8.8.8"]
    ensures Split("1.1.1.1,") == ["1.1.1.1", ""]
    ensures Split("") == [""]
  {
    SplitJoin(["1.1.1.1", "8.8.8.8"]);
    assert Join(["1.1.1.1", "8.8.8.8"]) == "1.1.1.1,8.8.8.8";
    SplitJoin(["1.1.1.1", ""]);
    assert Join(["1.1.1.1", ""]) == "1.1.1.1,";
  }

  /** Whether the overrides turn off the complete-propagation requirement (provider.go:56). */
  predicate DisableCPRequested(envs: map<string, string>)
  {
    DisableCPKey in envs && DisablesCP(envs[DisableCPKey])
  }

  /**
   * The options `newProvider` collects: first the disable-propagation
   * option when requested, then the resolver list when its key is present.
   */
  function ChallengeOptions(envs: map<string, string>): (opts: seq<ChallengeOption>)
    ensures DisableCompletePropagation in opts <==> DisableCPRequested(envs)
    ensures ResolversKey in envs ==> RecursiveNameservers(Split(envs[ResolversKey])) in opts
    ensures forall i :: 0 <= i < |opts| && opts[i].RecursiveNameservers? ==>
      ResolversKey in envs && opts[i].servers == Split(envs[ResolversKey])
    ensures |opts| == 2 ==> opts[0] == DisableCompletePropagation && opts[1].RecursiveNameservers?
    ensures |opts| <= 2
    ensures opts == [] <==> !DisableCPRequested(envs) && ResolversKey !in envs
  {
    (if DisableCPRequested(envs) then [DisableCompletePropagation] else [])
    + (if ResolversKey in envs then [RecursiveNameservers(Split(envs[ResolversKey]))] else [])
  }
}
