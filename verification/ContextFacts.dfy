/** What trimming to the input budget guarantees. */
module ContextFacts {
  import opened Wrappers
  import opened Blocks
  import opened Utf8
  import opened Tokens
  import opened ContextSpec

  /******* Truncation *******/

  lemma {:induction false} AsciiText(s: string)
    requires forall k :: 0 <= k < |s| ==> s[k] as int < 0x80
    ensures Size(s) == |s|
  {
    if s != "" {
      AsciiText(s[1..]);
    }
  }

  lemma SizeOfTruncated(s: string)
    requires s == TRUNCATED
    ensures Size(s) == 33
  {
    AsciiText(s);
  }

  lemma SizeOfEllipsis()
    ensures Size(ELLIPSIS) == 3
  {
    assert Encode(ELLIPSIS) == EncodeChar(ELLIPSIS[0]) + Encode(ELLIPSIS[1..]);
  }

  /** The long suffix needs nine tokens. */
  lemma SuffixFits(tokens: int)
    ensures Size(Suffix(tokens)) <= MaxBytes(tokens)
    ensures tokens >= 9 ==> Suffix(tokens) == TRUNCATED
    ensures tokens < 9 ==> Suffix(tokens) == ELLIPSIS
  {
    SizeOfTruncated(TRUNCATED);
    SizeOfEllipsis();
  }

  /** `n` characters of `value` fit beside the suffix, and one more would not. */
  predicate Longest(value: string, suffix: string, bytes: nat, n: nat) {
    && n <= |value| && Size(value[..n] + suffix) <= bytes
    && (n < |value| ==> Size(value[..n + 1] + suffix) > bytes)
  }

  lemma CutToIsLongest(value: string, suffix: string, bytes: nat) returns (n: nat)
    requires Size(suffix) <= bytes
    ensures Longest(value, suffix, bytes, n) && CutTo(value, suffix, bytes) == value[..n] + suffix
  {
    var room := bytes - Size(suffix);
    if room < Size(value) {
      n := Fitting(value, room);
      DecodeOfPrefix(value, room);
      if n < |value| {
        SizeOfAppend(value[..n + 1], suffix);
      }
    } else {
      n := |value|;
      RoundTrip(value);
      assert value[..n] == value;
    }
    SizeOfAppend(value[..n], suffix);
  }

  /** Truncation keeps the longest whole-character prefix that fits beside the suffix. */
  lemma TruncationIsLongest(value: string, tokens: int)
    ensures exists n: nat :: Longest(value, Suffix(tokens), MaxBytes(tokens), n)
                             && TruncateText(value, tokens) == value[..n] + Suffix(tokens)
    ensures CountText(TruncateText(value, tokens)) <= Max(1, tokens)
  {
    SuffixFits(tokens);
    var n := CutToIsLongest(value, Suffix(tokens), MaxBytes(tokens));
    CountOfShortText(TruncateText(value, tokens), tokens);
  }

  /******* Greedy selection *******/

  lemma {:induction false} SelectIsMonotone(items: seq<Block>, few: set<nat>, many: set<nat>)
    requires few <= many
    ensures Weight(Select(items, few)) <= Weight(Select(items, many))
  {
    if items != [] {
      var last := |items| - 1;
      SelectIsMonotone(items[..last], few, many);
      WeightOfAppend(Select(items[..last], few), if last in few then [items[last]] else []);
      WeightOfAppend(Select(items[..last], many), if last in many then [items[last]] else []);
    }
  }

  lemma FitsIsMonotone(req: Request, items: seq<Block>, few: set<nat>, many: set<nat>)
    requires few <= many && Fits(req, items, many)
    ensures Fits(req, items, few)
  {
    SelectIsMonotone(items, few, many);
    CountIsMonotone(req.system, req.tools, Select(items, few), Select(items, many));
  }

  lemma {:induction false} GreedyGrows(items: seq<Block>, fits: set<nat> -> bool, chosen: set<nat>, n: nat)
    requires n <= |items|
    ensures chosen <= Greedy(items, fits, chosen, n)
    ensures Greedy(items, fits, chosen, n) == chosen || fits(Greedy(items, fits, chosen, n))
    decreases n
  {
    if n != 0 {
      GreedyGrows(items, fits, Consider(items, fits, chosen, n - 1), n - 1);
    }
  }

  /** What fits still fits with less. */
  ghost predicate Monotone(fits: set<nat> -> bool) {
    forall few: set<nat>, many: set<nat> :: few <= many && fits(many) ==> fits(few)
  }

  lemma FitsInIsMonotone(req: Request, items: seq<Block>)
    ensures Monotone(FitsIn(req, items))
  {
    forall few: set<nat>, many: set<nat> | few <= many && FitsIn(req, items)(many) ensures FitsIn(req, items)(few) {
      FitsIsMonotone(req, items, few, many);
    }
  }

  /** Whatever was passed over still does not fit at the end. */
  lemma {:induction false} GreedyIsMaximal(
    items: seq<Block>, fits: set<nat> -> bool, chosen: set<nat>, n: nat, i: nat)
    requires Monotone(fits) && i < n <= |items| && i !in Greedy(items, fits, chosen, n)
    ensures !fits(Greedy(items, fits, chosen, n) + Related(items, i))
    decreases n
  {
    var next := Consider(items, fits, chosen, n - 1);
    var final := Greedy(items, fits, next, n - 1);
    if i < n - 1 {
      GreedyIsMaximal(items, fits, next, n - 1, i);
    } else {
      GreedyGrows(items, fits, next, n - 1);
      assert i in Related(items, i);
      assert chosen + Related(items, i) <= final + Related(items, i);
    }
  }

  /** No dropped item could be added back together with its partner. */
  lemma SelectionIsMaximal(req: Request, messages: seq<Block>, i: nat)
    ensures var (items, chosen) := Selection(req, messages);
            i < |items| && i !in chosen ==> !Fits(req, items, chosen + Related(items, i))
  {
    var (shrunk, start) := Opening(req, messages);
    var (items, chosen) := Selection(req, messages);
    if i < |items| && i !in chosen {
      FitsInIsMonotone(req, shrunk);
      GreedyIsMaximal(shrunk, FitsIn(req, shrunk), start, |shrunk|, i);
    }
  }
}
