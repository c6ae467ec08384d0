// Authorizer.Authorize: the longest matching prefix decides, deny wins a tie.
module Authorization {
  import opened Wrappers
  import opened PathPolicy

  datatype Action = Read | Write | Delete | Archive

  // A row of permissions for one user and root; action as normalised in the table.
  datatype Permission = Permission(prefix: string, action: Action, allow: bool)

  // Every rule of the asked action has a canonical prefix; otherwise the call fails.
  predicate Sound(rules: seq<Permission>, action: Action, policy: NamePolicy, u: Unicode) {
    forall p <- rules :: p.action == action ==> CanonicalPath(p.prefix, policy, u) == Some(p.prefix)
  }

  predicate Applies(p: Permission, path: string, action: Action) {
    p.action == action && Matches(path, p.prefix)
  }

  // A matching rule than which no matching rule has a longer prefix.
  predicate Decisive(rules: seq<Permission>, p: Permission, path: string, action: Action) {
    p in rules && Applies(p, path, action) && forall q <- rules :: Applies(q, path, action) ==> |q.prefix| <= |p.prefix|
  }

  // The decision, without any order of evaluation: some rule matches, and no
  // decisive rule denies.
  predicate Allowed(rules: seq<Permission>, path: string, action: Action) {
    && (exists p <- rules :: Applies(p, path, action))
    && (forall p <- rules :: Decisive(rules, p, path, action) ==> p.allow)
  }

  // The three loop variables after a list of rules.
  ghost predicate Scanned(rules: seq<Permission>, path: string, action: Action, best: int, allow: bool, denied: bool) {
    if best < 0 then best == -1 && !allow && !denied && forall p <- rules :: !Applies(p, path, action)
    else
      && (exists p <- rules :: Decisive(rules, p, path, action) && |p.prefix| == best)
      && (denied <==> exists p <- rules :: Decisive(rules, p, path, action) && !p.allow)
      && (allow || denied)
  }

  datatype Scan = Scan(best: int, allow: bool, denied: bool)

  // What the loop body does to the three variables.
  function Advance(scan: Scan, p: Permission, path: string, action: Action): Scan {
    if !Applies(p, path, action) then scan
    else if |p.prefix| > scan.best then Scan(|p.prefix|, p.allow, !p.allow)
    else if |p.prefix| == scan.best && !p.allow then scan.(denied := true)
    else scan
  }

  lemma ScanStep(rules: seq<Permission>, p: Permission, path: string, action: Action, scan: Scan)
    requires Scanned(rules, path, action, scan.best, scan.allow, scan.denied)
    ensures var next := Advance(scan, p, path, action);
            Scanned(rules + [p], path, action, next.best, next.allow, next.denied)
  {
    var all := rules + [p];
    assert p in all && forall q <- rules :: q in all;
    if scan.best >= 0 {
      var d :| d in rules && Decisive(rules, d, path, action) && |d.prefix| == scan.best;
      forall q <- rules ensures Decisive(rules, q, path, action) <==> Applies(q, path, action) && |q.prefix| == scan.best {
      }
    }
    if Applies(p, path, action) && |p.prefix| >= scan.best {
      forall q <- all ensures Decisive(all, q, path, action) <==> Applies(q, path, action) && |q.prefix| == |p.prefix| {
      }
    } else if scan.best >= 0 {
      forall q <- all ensures Decisive(all, q, path, action) <==> Applies(q, path, action) && |q.prefix| == scan.best {
      }
    }
  }

  function ScanAll(rules: seq<Permission>, path: string, action: Action): Scan {
    if rules == [] then Scan(-1, false, false)
    else Advance(ScanAll(rules[..|rules| - 1], path, action), rules[|rules| - 1], path, action)
  }

  lemma {:induction false} ScanAllDecides(rules: seq<Permission>, path: string, action: Action)
    ensures var scan := ScanAll(rules, path, action);
            && Scanned(rules, path, action, scan.best, scan.allow, scan.denied)
            && (Allowed(rules, path, action) <==> scan.best >= 0 && scan.allow && !scan.denied)
  {
    if rules != [] {
      var rest, last := rules[..|rules| - 1], rules[|rules| - 1];
      ScanAllDecides(rest, path, action);
      ScanStep(rest, last, path, action, ScanAll(rest, path, action));
      assert rest + [last] == rules;
    }
  }

  // The loop of Authorize. None is an error: the path itself, or a stored prefix
  // of the asked action, is not canonical.
  method Authorize(rules: seq<Permission>, logicalPath: string, action: Action, policy: NamePolicy, u: Unicode)
    returns (answer: Option<bool>)
    ensures answer.None? <==> CanonicalPath(logicalPath, policy, u).None? || !Sound(rules, action, policy, u)
    ensures answer.Some? ==> (answer.value <==> Allowed(rules, logicalPath, action))
    ensures answer.Some? ==> forall d <- rules ::
              && d.action == action && Matches(logicalPath, d.prefix)
              && (forall q <- rules :: q.action == action && Matches(logicalPath, q.prefix) ==> |q.prefix| <= |d.prefix|)
              ==> (answer.value <==> forall p <- rules :: p.action == action && p.prefix == d.prefix ==> p.allow)
    ensures answer.Some? && (forall p <- rules :: !(p.action == action && Matches(logicalPath, p.prefix))) ==> !answer.value
  {
    var path := CanonicalPath(logicalPath, policy, u);
    if path.None? {
      return None;
    }
    var best, allow, denied := -1, false, false;
    for i := 0 to |rules|
      invariant Sound(rules[..i], action, policy, u)
      invariant Scan(best, allow, denied) == ScanAll(rules[..i], logicalPath, action)
    {
      var p := rules[i];
      assert rules[..i + 1][..i] == rules[..i] && rules[..i + 1][i] == p;
      if p.action != action {
        continue;
      }
      var prefix := CanonicalPath(p.prefix, policy, u);
      if prefix.None? {
        assert p in rules;
        return None;
      }
      if !Matches(path.value, prefix.value) {
        continue;
      }
      var n := |prefix.value|;
      if n > best {
        best, allow, denied := n, p.allow, !p.allow;
      } else if n == best && !p.allow {
        denied := true;
      }
    }
    assert rules[..|rules|] == rules;
    ScanAllDecides(rules, logicalPath, action);
    LongestPrefixesDecide(rules, logicalPath, action);
    answer := Some(best >= 0 && allow && !denied);
  }

  // --- what the decision means ---

  // Matching prefixes of one length are one prefix.
  lemma MatchingPrefixIsUnique(path: string, p: string, q: string)
    requires path != "" && path[0] == '/'
    requires Matches(path, p) && Matches(path, q) && |p| == |q|
    ensures p == q
  {
    assert p == path[..|p|] && q == path[..|q|];
  }

  // A rule d whose prefix is the longest that matches settles the answer together
  // with the rules of its own prefix: the call is allowed exactly when none of
  // them denies. Where no rule matches it is not allowed.
  lemma LongestPrefixDecides(rules: seq<Permission>, d: Permission, path: string, action: Action)
    requires path != "" && path[0] == '/' && d in rules && d.action == action && Matches(path, d.prefix)
    requires forall q <- rules :: q.action == action && Matches(path, q.prefix) ==> |q.prefix| <= |d.prefix|
    ensures Allowed(rules, path, action) <==> forall p <- rules :: p.action == action && p.prefix == d.prefix ==> p.allow
  {
    assert Decisive(rules, d, path, action);
    forall p <- rules ensures Decisive(rules, p, path, action) <==> p.action == action && p.prefix == d.prefix {
      if Decisive(rules, p, path, action) {
        MatchingPrefixIsUnique(path, p.prefix, d.prefix);
      }
    }
  }

  lemma LongestPrefixesDecide(rules: seq<Permission>, path: string, action: Action)
    requires path != "" && path[0] == '/'
    ensures forall d <- rules ::
              && d.action == action && Matches(path, d.prefix)
              && (forall q <- rules :: q.action == action && Matches(path, q.prefix) ==> |q.prefix| <= |d.prefix|)
              ==> (Allowed(rules, path, action) <==> forall p <- rules :: p.action == action && p.prefix == d.prefix ==> p.allow)
    ensures (forall p <- rules :: !(p.action == action && Matches(path, p.prefix))) ==> !Allowed(rules, path, action)
  {
    forall d <- rules
      | && d.action == action && Matches(path, d.prefix)
        && (forall q <- rules :: q.action == action && Matches(path, q.prefix) ==> |q.prefix| <= |d.prefix|)
      ensures Allowed(rules, path, action) <==> forall p <- rules :: p.action == action && p.prefix == d.prefix ==> p.allow
    {
      LongestPrefixDecides(rules, d, path, action);
    }
  }

  // Wherever a rule matches there is such a rule, so the two cases are all.
  lemma {:induction false} LongestExists(rules: seq<Permission>, path: string, action: Action)
    requires exists p <- rules :: p.action == action && Matches(path, p.prefix)
    ensures exists d <- rules ::
              && d.action == action && Matches(path, d.prefix)
              && forall q <- rules :: q.action == action && Matches(path, q.prefix) ==> |q.prefix| <= |d.prefix|
  {
    var rest, last := rules[..|rules| - 1], rules[|rules| - 1];
    assert rules == rest + [last];
    if exists p <- rest :: p.action == action && Matches(path, p.prefix) {
      LongestExists(rest, path, action);
      var d :| d in rest && d.action == action && Matches(path, d.prefix)
               && forall q <- rest :: q.action == action && Matches(path, q.prefix) ==> |q.prefix| <= |d.prefix|;
      var longer := if last.action == action && Matches(path, last.prefix) && |last.prefix| > |d.prefix| then last else d;
      assert longer in rules;
      forall q <- rules | q.action == action && Matches(path, q.prefix) ensures |q.prefix| <= |longer.prefix| {
        assert q in rest || q == last;
      }
    } else {
      forall q <- rules | q.action == action && Matches(path, q.prefix) ensures q == last {
        assert q in rest || q == last;
      }
      assert last in rules;
    }
  }

  // Longer in characters is longer in segments: of two prefixes of one path the
  // more specific directory wins.
  lemma LongerIsMoreSpecific(path: string, p: string, q: string)
    requires Rooted(path) && Rooted(p) && Rooted(q) && Matches(path, p) && Matches(path, q)
    ensures |p| <= |q| <==> Segments(p) <= Segments(q)
  {
    MatchesIsPrefix(path, p);
    MatchesIsPrefix(path, q);
    if Segments(p) <= Segments(q) {
      MatchesIsPrefix(q, p);
    } else {
      assert Segments(q) <= Segments(p);
      MatchesIsPrefix(p, q);
    }
  }

  // Rows in any other order, or with duplicates, give the same answer and the
  // same error or not.
  lemma OrderIsIrrelevant(rules: seq<Permission>, rules': seq<Permission>, path: string, action: Action,
                          policy: NamePolicy, u: Unicode)
    requires forall p :: p in rules <==> p in rules'
    ensures Sound(rules, action, policy, u) <==> Sound(rules', action, policy, u)
    ensures Allowed(rules, path, action) <==> Allowed(rules', path, action)
  {
    forall p ensures Decisive(rules, p, path, action) <==> Decisive(rules', p, path, action) {
    }
  }

  // One more allow never takes an access away; one more deny never gives one.
  lemma AddingRule(rules: seq<Permission>, rule: Permission, path: string, action: Action)
    ensures rule.allow && Allowed(rules, path, action) ==> Allowed(rules + [rule], path, action)
    ensures !rule.allow && Allowed(rules + [rule], path, action) ==> Allowed(rules, path, action)
  {
    var all := rules + [rule];
    assert rule in all && forall p <- rules :: p in all;
    forall p <- rules ensures Decisive(all, p, path, action) ==> Decisive(rules, p, path, action) {
    }
    if !rule.allow && Allowed(all, path, action) {
      // the rule is not decisive, so a longer matching prefix is among the old rules
      assert !Decisive(all, rule, path, action);
      if Applies(rule, path, action) {
        var q :| q in all && Applies(q, path, action) && |q.prefix| > |rule.prefix|;
        forall p <- rules | Decisive(rules, p, path, action) ensures Decisive(all, p, path, action) {
        }
      } else {
        forall p <- rules | Decisive(rules, p, path, action) ensures Decisive(all, p, path, action) {
        }
      }
    }
  }
}
