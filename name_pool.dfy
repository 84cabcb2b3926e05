/**
 * The per-category crew name pool: names already handed out are kept in a
 * used set, a new name is drawn from the configured list minus that set, and
 * the used set is emptied once it holds as many names as the list is long.
 */
module NamePool {
  import opened Collections

  /** The names that can still be drawn: the configured list minus the used set. */
  function Available(used: set<string>, pool: seq<string>): set<string>
  {
    Elements(pool) - used
  }

  /** The used set after `name` is handed out: the name is added, and the set is cleared when its size reaches `|pool|`. */
  function Take(used: set<string>, pool: seq<string>, name: string): (r: set<string>)
    ensures |used + {name}| == |pool| ==> r == {}
    ensures |used + {name}| != |pool| ==> r == used + {name}
  {
    var grown := used + {name};
    if |grown| == |pool| then {} else grown
  }

  /** What the allocator keeps true of each used set: only pool names, and never as many as the list is long unless empty. */
  ghost predicate WithinPool(used: set<string>, pool: seq<string>)
  {
    used <= Elements(pool) && (used == {} || |used| < |pool|)
  }

  /** Handing out an available name keeps the used set within the pool. */
  lemma TakeWithinPool(used: set<string>, pool: seq<string>, name: string)
    requires WithinPool(used, pool)
    requires name in Available(used, pool)
    ensures WithinPool(Take(used, pool, name), pool)
  {
    var grown := used + {name};
    assert |grown| == |used| + 1;
    SubsetCard(grown, Elements(pool));
    ElementsCard(pool);
  }

  /** With a non-empty list of distinct names, drawing never finds the available set empty. */
  lemma NeverExhausted(used: set<string>, pool: seq<string>)
    requires Distinct(pool) && |pool| > 0
    requires WithinPool(used, pool)
    ensures Available(used, pool) != {}
  {
    ElementsCard(pool);
    assert pool[0] in Elements(pool);
    assert |used| < |Elements(pool)|;
    SubsetCard(Elements(pool), used);
    var x :| x in Elements(pool) && x !in used;
    assert x in Available(used, pool);
  }

  /** A list with a repeated name holds fewer distinct names than entries. */
  lemma RepeatedNameShrinks(pool: seq<string>)
    requires !Distinct(pool)
    ensures |Elements(pool)| < |pool|
  {
    var i, j :| 0 <= i < j < |pool| && pool[i] == pool[j];
    var rest := pool[..j] + pool[j + 1..];
    assert Elements(rest) == Elements(pool) by {
      forall x | x in Elements(pool) ensures x in Elements(rest) {
        var k :| 0 <= k < |pool| && pool[k] == x;
        if k < j {
          assert rest[k] == x;
        } else if k == j {
          assert rest[i] == x;
        } else {
          assert rest[k - 1] == x;
        }
      }
      forall x | x in Elements(rest) ensures x in Elements(pool) {
        var k :| 0 <= k < |rest| && rest[k] == x;
        if k < j {
          assert pool[k] == x;
        } else {
          assert pool[k + 1] == x;
        }
      }
    }
    ElementsCard(rest);
  }

  /**
   * With a repeated name in the list the used set can never reach the list's
   * length: a draw only adds the drawn name and never clears the set.
   */
  lemma RepeatedNeverClears(used: set<string>, pool: seq<string>, name: string)
    requires !Distinct(pool) && used <= Elements(pool)
    requires name in Available(used, pool)
    ensures Take(used, pool, name) == used + {name}
  {
    RepeatedNameShrinks(pool);
    SubsetCard(used + {name}, Elements(pool));
  }

  /** With a repeated name in the list, consecutive draws are distinct, all available at the start, and accumulate. */
  lemma {:induction false} RepeatedRunAccumulates(used: set<string>, pool: seq<string>, names: seq<string>)
    requires !Distinct(pool) && used <= Elements(pool)
    requires ValidRun(used, pool, names)
    ensures Distinct(names) && Elements(names) <= Available(used, pool)
    ensures After(used, pool, names) == used + Elements(names)
    decreases |names|
  {
    if names != [] {
      var n0, rest := names[0], names[1..];
      RepeatedNeverClears(used, pool, n0);
      RepeatedRunAccumulates(used + {n0}, pool, rest);
      ElementsCons(names);
      forall a, b | 0 <= a < b < |names| ensures names[a] != names[b] {
        assert names[b] == rest[b - 1];
        if a > 0 {
          assert names[a] == rest[a - 1];
        }
      }
    }
  }

  /**
   * With a repeated name in the list, once as many names have been drawn as
   * were available, the used set is the whole pool and nothing is left: the
   * next `random.choice` is on an empty list and raises.
   */
  lemma RepeatedNameExhausts(used: set<string>, pool: seq<string>, names: seq<string>)
    requires !Distinct(pool) && used <= Elements(pool)
    requires ValidRun(used, pool, names)
    requires |names| == |Available(used, pool)|
    ensures After(used, pool, names) == Elements(pool)
    ensures Available(After(used, pool, names), pool) == {}
  {
    RepeatedRunAccumulates(used, pool, names);
    ElementsCard(names);
    SubsetFull(Elements(names), Available(used, pool));
  }

  /** `names` is a sequence of consecutive draws starting from `used`, each from the names then available. */
  ghost predicate ValidRun(used: set<string>, pool: seq<string>, names: seq<string>)
    decreases |names|
  {
    names == [] ||
    (names[0] in Available(used, pool) && ValidRun(Take(used, pool, names[0]), pool, names[1..]))
  }

  /** The used set after the draws `names`. */
  function After(used: set<string>, pool: seq<string>, names: seq<string>): set<string>
    decreases |names|
  {
    if names == [] then used else After(Take(used, pool, names[0]), pool, names[1..])
  }

  /**
   * Consecutive draws that together do not fill the pool are pairwise distinct
   * and new; while the pool is not filled, the used set is exactly what was
   * drawn.
   */
  lemma {:induction false} RunDistinct(used: set<string>, pool: seq<string>, names: seq<string>)
    requires ValidRun(used, pool, names)
    requires |used| + |names| <= |pool|
    ensures Distinct(names)
    ensures used !! Elements(names)
    ensures |used| + |names| < |pool| ==> After(used, pool, names) == used + Elements(names)
    decreases |names|
  {
    if names != [] {
      var n0, rest := names[0], names[1..];
      ElementsCons(names);
      var grown := used + {n0};
      assert |grown| == |used| + 1;
      if |grown| < |pool| {
        RunDistinct(grown, pool, rest);
        forall i, j | 0 <= i < j < |names| ensures names[i] != names[j] {
          if i == 0 {
            assert names[j] == rest[j - 1];
          } else {
            assert names[i] == rest[i - 1] && names[j] == rest[j - 1];
          }
        }
      } else {
        assert |names| == 1;
      }
    }
  }

  /** Draws that together fill the pool end with the used set cleared. */
  lemma {:induction false} FullRunClears(used: set<string>, pool: seq<string>, names: seq<string>)
    requires ValidRun(used, pool, names)
    requires names != [] && |used| + |names| == |pool|
    ensures After(used, pool, names) == {}
    decreases |names|
  {
    var n0 := names[0];
    var grown := used + {n0};
    assert |grown| == |used| + 1;
    if |names| > 1 {
      FullRunClears(grown, pool, names[1..]);
    }
  }
}
