/** Routing of tenants, projects and sources to physical tables. The hash is an arbitrary
    function: nothing below needs it to be injective. */
module TableRouting {
  import opened Prelude
  import Text

  datatype RouteError = MissingTenant | MissingProject | MissingSource | UnsafeTable

  datatype Router = Router(prefix: string, hash: string -> string)

  const PROPERTY_TABLE_SUFFIX := "_properties"

  predicate IdentifierStart(c: char) { 'a' <= c <= 'z' }

  predicate IdentifierPart(c: char) { 'a' <= c <= 'z' || '0' <= c <= '9' || c == '_' }

  predicate SafeIdentifier(s: string) {
    s != "" && IdentifierStart(s[0]) && forall i | 0 <= i < |s| :: IdentifierPart(s[i])
  }

  function RouteKey(r: Router, tenantId: string, projectId: string, sourceId: string): Result<string, RouteError> {
    if tenantId == "" then Err(MissingTenant)
    else if projectId == "" then Err(MissingProject)
    else if sourceId == "" then Err(MissingSource)
    else Ok(r.prefix + "_" + r.hash(tenantId) + "_" + r.hash(projectId) + "_" + r.hash(sourceId))
  }

  function PropertyTableFor(physical: string): Result<string, RouteError> {
    if Text.TrimSpace(physical) == "" || !SafeIdentifier(physical) then Err(UnsafeTable)
    else Ok(physical + PROPERTY_TABLE_SUFFIX)
  }

  /** The property table shared by the write path and the read path of a routing key. */
  function PropertyRoute(r: Router, tenantId: string, projectId: string, sourceId: string): Result<string, RouteError> {
    var event := RouteKey(r, tenantId, projectId, sourceId);
    if event.Err? then event else PropertyTableFor(event.value)
  }

  /** Distinct event tables have distinct property tables. */
  lemma PropertyTablesFollowEventTables(a: string, b: string)
    requires PropertyTableFor(a).Ok? && PropertyTableFor(b).Ok?
    ensures PropertyTableFor(a) == PropertyTableFor(b) <==> a == b
  {
    var x, y := a + PROPERTY_TABLE_SUFFIX, b + PROPERTY_TABLE_SUFFIX;
    if x == y {
      assert |a| == |b|;
      assert a == x[..|a|] && b == y[..|b|];
    }
  }

  /** A name is safe exactly if it starts with a small letter and has only small letters, digits and
      underscores. */
  lemma SafeMeans(s: string)
    ensures SafeIdentifier(s) <==>
              && s != "" && s[0] in "abcdefghijklmnopqrstuvwxyz"
              && forall i | 0 <= i < |s| :: s[i] in "abcdefghijklmnopqrstuvwxyz0123456789_"
  {
    forall c: char ensures IdentifierStart(c) <==> c in "abcdefghijklmnopqrstuvwxyz" {
      LettersListed(c);
    }
    forall c: char ensures IdentifierPart(c) <==> c in "abcdefghijklmnopqrstuvwxyz0123456789_" {
      LettersListed(c);
      DigitsListed(c);
      PartsListed(c);
    }
  }

  lemma LettersListed(c: char)
    ensures 'a' <= c <= 'z' <==> c in "abcdefghijklmnopqrstuvwxyz"
  {
    var letters := "abcdefghijklmnopqrstuvwxyz";
    assert forall i | 0 <= i < 26 :: letters[i] as int == 'a' as int + i;
    if 'a' <= c <= 'z' {
      assert letters[c as int - 'a' as int] == c;
    }
  }

  lemma DigitsListed(c: char)
    ensures '0' <= c <= '9' <==> c in "0123456789"
  {
    var digits := "0123456789";
    assert forall i | 0 <= i < 10 :: digits[i] as int == '0' as int + i;
    if '0' <= c <= '9' {
      assert digits[c as int - '0' as int] == c;
    }
  }

  lemma PartsListed(c: char)
    ensures c in "abcdefghijklmnopqrstuvwxyz0123456789_" <==> c in "abcdefghijklmnopqrstuvwxyz" || c in "0123456789" || c == '_'
  {
    assert "abcdefghijklmnopqrstuvwxyz0123456789_" == "abcdefghijklmnopqrstuvwxyz" + "0123456789" + "_";
  }

  /** Hashes as the router takes them: of one length, letters and digits only. */
  ghost predicate Tidy(r: Router, width: nat) {
    && SafeIdentifier(r.prefix)
    && forall id :: |r.hash(id)| == width && forall i | 0 <= i < width :: IdentifierPart(r.hash(id)[i])
  }

  /** A key is routed exactly if all three ids are there; the first one missing is reported. */
  lemma RoutesComplete(r: Router, tenantId: string, projectId: string, sourceId: string)
    ensures var table := RouteKey(r, tenantId, projectId, sourceId);
            && (table.Ok? <==> tenantId != "" && projectId != "" && sourceId != "")
            && (table == Err(MissingTenant) <==> tenantId == "")
            && (table == Err(MissingProject) <==> tenantId != "" && projectId == "")
            && (table == Err(MissingSource) <==> tenantId != "" && projectId != "" && sourceId == "")
  {
  }

  lemma EqualParts(a: string, b: string, x: string, y: string)
    requires |a| == |x| && a + b == x + y
    ensures a == x && b == y
  {
    assert a == (a + b)[..|a|] && x == (x + y)[..|x|];
    assert b == (a + b)[|a|..] && y == (x + y)[|x|..];
  }

  /** Two keys share an event table exactly if all three of their hashes are equal. */
  lemma TablesSeparate(r: Router, width: nat, t: string, p: string, s: string, t': string, p': string, s': string)
    requires Tidy(r, width) && RouteKey(r, t, p, s).Ok? && RouteKey(r, t', p', s').Ok?
    ensures RouteKey(r, t, p, s) == RouteKey(r, t', p', s') <==>
              r.hash(t) == r.hash(t') && r.hash(p) == r.hash(p') && r.hash(s) == r.hash(s')
  {
    var a, b := RouteKey(r, t, p, s).value, RouteKey(r, t', p', s').value;
    if a == b {
      var x, y := r.hash(p) + "_" + r.hash(s), r.hash(p') + "_" + r.hash(s');
      assert a == (r.prefix + "_") + (r.hash(t) + ("_" + x)) && b == (r.prefix + "_") + (r.hash(t') + ("_" + y));
      EqualParts(r.prefix + "_", r.hash(t) + ("_" + x), r.prefix + "_", r.hash(t') + ("_" + y));
      EqualParts(r.hash(t), "_" + x, r.hash(t'), "_" + y);
      EqualParts("_", x, "_", y);
      assert x == r.hash(p) + ("_" + r.hash(s)) && y == r.hash(p') + ("_" + r.hash(s'));
      EqualParts(r.hash(p), "_" + r.hash(s), r.hash(p'), "_" + r.hash(s'));
      EqualParts("_", r.hash(s), "_", r.hash(s'));
    }
  }

  lemma SafeConcat(a: string, b: string)
    requires SafeIdentifier(a) && forall i | 0 <= i < |b| :: IdentifierPart(b[i])
    ensures SafeIdentifier(a + b)
  {
  }

  /** Every routed table has a safe name, so it has a property table, named after it. */
  lemma RoutedTablesAreSafe(r: Router, width: nat, tenantId: string, projectId: string, sourceId: string)
    requires Tidy(r, width) && RouteKey(r, tenantId, projectId, sourceId).Ok?
    ensures var table := RouteKey(r, tenantId, projectId, sourceId).value;
            SafeIdentifier(table) && PropertyTableFor(table) == Ok(table + "_properties")
  {
    SafeConcat(r.prefix, "_");
    SafeConcat(r.prefix + "_", r.hash(tenantId));
    SafeConcat(r.prefix + "_" + r.hash(tenantId), "_");
    SafeConcat(r.prefix + "_" + r.hash(tenantId) + "_", r.hash(projectId));
    SafeConcat(r.prefix + "_" + r.hash(tenantId) + "_" + r.hash(projectId), "_");
    SafeConcat(r.prefix + "_" + r.hash(tenantId) + "_" + r.hash(projectId) + "_", r.hash(sourceId));
    SafeNamesAreTaken(RouteKey(r, tenantId, projectId, sourceId).value);
  }

  /** A table has a property table exactly if its name is safe. */
  lemma SafeNamesAreTaken(s: string)
    ensures PropertyTableFor(s) == if SafeIdentifier(s) then Ok(s + "_properties") else Err(UnsafeTable)
  {
    if SafeIdentifier(s) {
      assert !Text.IsSpace(s[0]) && Text.TrimLeft(s) == s;
      Text.TrimRightKeepsFirst(s);
    }
  }
}
