/**
 * The credential pools of main.py: the comma-separated environment strings
 * become `ACTIVE_GEMINI_KEYS` and `ACTIVE_SEARCH_KEYS` (lines 18-19, 28-29),
 * global lists that every provider call shuffles in place (lines 44, 77).
 */
module KeyPools {
  import opened Strings

  /** What the parser lets into a pool: non-empty, no surrounding whitespace, no comma. */
  predicate Usable(k: string)
  {
    k != "" && Trimmed(k) && ',' !in k
  }

  /** `[k.strip() for k in parts if k.strip()]`. */
  function KeepStripped(parts: seq<string>): (keys: seq<string>)
    ensures forall k :: k in keys ==> k != "" && Trimmed(k)
  {
    if parts == [] then [] else KeepOne(parts[0]) + KeepStripped(parts[1..])
  }

  /** One step of the comprehension: the stripped piece, when it is not blank. */
  function KeepOne(part: string): seq<string>
  {
    var k := Strip(part);
    if k != "" then [k] else []
  }

  /** Stripping cannot bring in a character the string did not have. */
  lemma StripKeepsOut(p: string, c: char)
    requires c !in p
    ensures c !in Strip(p)
  {
    var k := Strip(p);
    var i :| 0 <= i <= |p| && OccursAt(p, k, i);
    forall j | 0 <= j < |k| ensures k[j] != c {
      assert k[j] == p[i + j];
    }
  }

  lemma {:induction false} KeepStrippedSeparatorFree(parts: seq<string>)
    requires forall p :: p in parts ==> ',' !in p
    ensures forall k :: k in KeepStripped(parts) ==> ',' !in k
    decreases |parts|
  {
    if parts != [] {
      StripKeepsOut(parts[0], ',');
      KeepStrippedSeparatorFree(parts[1..]);
    }
  }

  /** Lines 18 and 28: `[k.strip() for k in env.split(",") if k.strip()]`. */
  function ParsePool(env: string): (keys: seq<string>)
    ensures forall k :: k in keys ==> k != "" && Trimmed(k)
  {
    KeepStripped(Split(env, ','))
  }

  /** Every key the parser lets into a pool is usable. */
  lemma ParsePoolAllUsable(env: string)
    ensures forall k :: k in ParsePool(env) ==> Usable(k)
  {
    SplitPiecesSeparatorFree(env, ',');
    KeepStrippedSeparatorFree(Split(env, ','));
  }

  lemma {:induction false} KeepStrippedConcat(a: seq<string>, b: seq<string>)
    ensures KeepStripped(a + b) == KeepStripped(a) + KeepStripped(b)
    decreases |a|
  {
    if a == [] {
      assert a + b == b;
    } else {
      assert (a + b)[0] == a[0] && (a + b)[1..] == a[1..] + b;
      KeepStrippedConcat(a[1..], b);
      calc {
        KeepStripped(a + b);
        KeepOne(a[0]) + KeepStripped(a[1..] + b);
        KeepOne(a[0]) + (KeepStripped(a[1..]) + KeepStripped(b));
        (KeepOne(a[0]) + KeepStripped(a[1..])) + KeepStripped(b);
      }
    }
  }

  lemma {:induction false} SplitWithoutSeparator(s: string, sep: char)
    requires sep !in s
    ensures Split(s, sep) == [s]
    decreases |s|
  {
    if s != [] {
      SplitWithoutSeparator(s[1..], sep);
      assert [s[0]] + s[1..] == s;
    }
  }

  /** The pool of `a,b` is the pool of `a` followed by the pool of `b`: order is kept. */
  lemma ParsePoolConcat(a: string, b: string)
    ensures ParsePool(a + "," + b) == ParsePool(a) + ParsePool(b)
  {
    SplitAround(a, b, ',');
    KeepStrippedConcat(Split(a, ','), Split(b, ','));
  }

  /** A variable without commas gives its stripped value, or nothing when that is blank. */
  lemma ParsePoolSingle(env: string)
    requires ',' !in env
    ensures ParsePool(env) == if Strip(env) == "" then [] else [Strip(env)]
  {
    SplitWithoutSeparator(env, ',');
    calc {
      ParsePool(env);
      KeepStripped([env]);
      KeepOne(env) + KeepStripped([env][1..]);
      { assert [env][1..] == []; }
      KeepOne(env) + KeepStripped([]);
      KeepOne(env);
    }
  }

  /** A variable that is unset, empty or only whitespace gives an empty pool. */
  lemma ParsePoolBlank(env: string)
    requires AllSpace(env)
    ensures ParsePool(env) == []
  {
    assert ',' !in env by {
      forall i | 0 <= i < |env| ensures env[i] != ',' {
        assert IsSpace(env[i]);
      }
    }
    calc {
      ParsePool(env);
      { ParsePoolSingle(env); }
      if Strip(env) == "" then [] else [Strip(env)];
      { assert env + "" + [] == env; StripPadded(env, "", []); }
      [];
    }
  }

  lemma ParsePoolUsable(k: string)
    requires Usable(k)
    ensures ParsePool(k) == [k]
  {
    calc {
      ParsePool(k);
      { ParsePoolSingle(k); }
      if Strip(k) == "" then [] else [Strip(k)];
      { assert [] + k + [] == k; StripPadded([], k, []); }
      [k];
    }
  }

  /** Listing usable keys with commas and parsing the result gives back the same keys, in order. */
  lemma {:induction false} ParsePoolRoundTrip(keys: seq<string>)
    requires forall k :: k in keys ==> Usable(k)
    ensures ParsePool(Join(keys, ",")) == keys
    decreases |keys|
  {
    if keys == [] {
      ParsePoolBlank("");
    } else if |keys| == 1 {
      assert keys[0] in keys;
      ParsePoolUsable(keys[0]);
    } else {
      assert keys[0] in keys;
      assert forall x :: x in keys[1..] ==> x in keys;
      ParsePoolRoundTrip(keys[1..]);
      ParsePoolCons(keys[0], keys[1..]);
      assert [keys[0]] + keys[1..] == keys;
    }
  }

  /** One more usable key in front of a list the parser gives back whole. */
  lemma ParsePoolCons(k: string, rest: seq<string>)
    requires Usable(k) && |rest| >= 1 && ParsePool(Join(rest, ",")) == rest
    ensures ParsePool(Join([k] + rest, ",")) == [k] + rest
  {
    calc {
      ParsePool(Join([k] + rest, ","));
      { assert ([k] + rest)[1..] == rest; }
      ParsePool(k + "," + Join(rest, ","));
      { ParsePoolConcat(k, Join(rest, ",")); }
      ParsePool(k) + ParsePool(Join(rest, ","));
      { ParsePoolUsable(k); }
      [k] + rest;
    }
  }

  /** The random source `random.shuffle` draws from: `randbelow(n)` is in `[0, n)`. */
  ghost predicate RandBelow(randbelow: nat -> nat)
  {
    forall n: nat :: 0 < n ==> randbelow(n) < n
  }

  /** A global key list such as `ACTIVE_GEMINI_KEYS`. */
  class KeyPool {
    var keys: seq<string>

    ghost predicate Valid()
      reads this
    {
      forall k :: k in keys ==> Usable(k)
    }

    /** Lines 28-29: the pool built from the environment variable's value. */
    constructor (env: string)
      ensures Valid() && keys == ParsePool(env)
    {
      ParsePoolAllUsable(env);
      keys := ParsePool(env);
    }

    /**
     * `random.shuffle(keys)` (lines 44, 77): CPython's Fisher-Yates pass,
     * swapping position `i` with `randbelow(i + 1)` for `i` from the end down to 1.
     */
    method Shuffle(randbelow: nat -> nat)
      requires Valid() && RandBelow(randbelow)
      modifies this
      ensures Valid()
      ensures |keys| == |old(keys)| && multiset(keys) == multiset(old(keys))
    {
      var i := |keys| - 1;
      while i >= 1
        invariant i < |keys|
        invariant |keys| == |old(keys)| && multiset(keys) == multiset(old(keys))
      {
        var j := randbelow(i + 1);
        keys := keys[i := keys[j]][j := keys[i]];
        i := i - 1;
      }
      forall k | k in keys ensures Usable(k) {
        assert k in multiset(old(keys));
      }
    }
  }
}
