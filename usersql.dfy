/** backend/sql/user/user.go: the query ListUsersByStatuses builds (placeholders, arguments and a
    whitelisted ORDER BY), how it collects the rows it gets back, and how `User.String` renders a user.
    The database is a parameter: a function from the query it is sent to what it answers. */
module UserSql {
  import opened GoInts
  import opened Wrappers

  /** A user as String sees it.  `startedAt` is already the text Go's time formatting gives for
      the "2006-01-02 15:04:05" layout; that formatting is not part of this model. */
  datatype User = User(id: Int64, name: string, email: string, status: Option<string>, age: Option<string>, startedAt: string)

  /** What the zero `time.Time` of a freshly declared `User` renders as. */
  const ZERO_TIME := "0001-01-01 00:00:00"

  // ---------------------------------------------------------------------------------------------
  // Rendering

  function DigitChar(d: nat): (c: char)
    requires d < 10
    ensures '0' <= c <= '9' && c as int - '0' as int == d
  {
    "0123456789"[d]
  }

  /** `%d` of a natural number: its decimal digits, most significant first. */
  function NatDigits(n: nat): (s: string)
    ensures |s| >= 1
    ensures forall i :: 0 <= i < |s| ==> '0' <= s[i] <= '9'
    ensures s[0] == '0' ==> n == 0
    decreases n
  {
    if n < 10 then [DigitChar(n)] else NatDigits(n / 10) + [DigitChar(n % 10)]
  }

  /** The value a string of decimal digits denotes. */
  function DigitsValue(s: string): nat
    requires forall i :: 0 <= i < |s| ==> '0' <= s[i] <= '9'
  {
    if s == [] then 0 else DigitsValue(s[..|s| - 1]) * 10 + (s[|s| - 1] as int - '0' as int)
  }

  /** `%d` of any integer: a minus sign before the digits of a negative number. */
  function Decimal(n: int): (s: string)
    ensures |s| >= 1
    ensures s[0] == '-' <==> n < 0
    ensures forall i :: (if n < 0 then 1 else 0) <= i < |s| ==> '0' <= s[i] <= '9'
  {
    if n < 0 then "-" + NatDigits(-n) else NatDigits(n)
  }

  /** Reading the digits back gives the number, so `%d` loses nothing. */
  lemma {:induction false} NatDigitsValue(n: nat)
    ensures DigitsValue(NatDigits(n)) == n
    decreases n
  {
    if n >= 10 {
      var s := NatDigits(n);
      assert s[..|s| - 1] == NatDigits(n / 10);
      NatDigitsValue(n / 10);
    }
  }

  /** Reading back the digits after an optional minus sign gives the integer `%d` rendered. */
  lemma {:induction false} DecimalValue(n: int)
    ensures n >= 0 ==> DigitsValue(Decimal(n)) == n
    ensures n < 0 ==> DigitsValue(Decimal(n)[1..]) == -n
  {
    var digits := NatDigits(if n < 0 then -n else n);
    NatDigitsValue(if n < 0 then -n else n);
    assert Decimal(n) == (if n < 0 then "-" else "") + digits;
    if n < 0 {
      assert Decimal(n)[1..] == digits;
    }
  }

  /** A nil `*string` is shown as "<nil>", any other as the string it points to. */
  function ShowOptional(p: Option<string>): (s: string)
    ensures p.Some? ==> s == p.value
    ensures p.None? ==> s == "<nil>"
  {
    match p
    case Some(v) => v
    case None => "<nil>"
  }

  /** Where each part of a seven-part concatenation lies. */
  lemma Layout(a: string, id: string, b: string, st: string, c: string, age: string, d: string)
    ensures var s, k := a + id + b + st + c + age + d, |a| + |id| + |b|;
      && |s| == k + |st| + |c| + |age| + |d|
      && s[..|a|] == a && s[|a|..|a| + |id|] == id
      && s[k..k + |st|] == st && s[k + |st| + |c|..k + |st| + |c| + |age|] == age
  {
    var s, k := a + id + b + st + c + age + d, |a| + |id| + |b|;
    assert forall i :: 0 <= i < |id| ==> s[|a| + i] == id[i];
    assert forall i :: 0 <= i < |st| ==> s[k + i] == st[i];
    assert forall i :: 0 <= i < |age| ==> s[k + |st| + |c| + i] == age[i];
  }

  /** Where the Status slot of a rendering starts: after the id, the name and the email with
      their labels. */
  function StatusAt(u: User): nat {
    9 + |Decimal(u.id)| + |", Name: " + u.name + ", Email: " + u.email + ", Status: "|
  }

  /** `User.String`: it opens with `User{ID: ` and the id's `%d` digits; the Status slot holds what
      ShowOptional renders for the status, and after `, Age: ` the Age slot holds the age's. */
  function Show(u: User): (s: string)
    ensures StatusAt(u) + |ShowOptional(u.status)| + 7 + |ShowOptional(u.age)| <= |s|
    ensures s[..9] == "User{ID: " && s[9..9 + |Decimal(u.id)|] == Decimal(u.id)
    ensures var k, st, age := StatusAt(u), ShowOptional(u.status), ShowOptional(u.age);
      && s[k..k + |st|] == st
      && s[k + |st| + 7..k + |st| + 7 + |age|] == age
  {
    var id, st, age := Decimal(u.id), ShowOptional(u.status), ShowOptional(u.age);
    var labels := ", Name: " + u.name + ", Email: " + u.email + ", Status: ";
    var tail := ", StartedAt: " + u.startedAt + "}";
    Layout("User{ID: ", id, labels, st, ", Age: ", age, tail);
    "User{ID: " + id + labels + st + ", Age: " + age + tail
  }

  /** The id can be read back from a rendering: the digits after `User{ID: `, and after a minus
      sign for a negative id, denote it. */
  lemma ShowIdRoundTrip(u: User)
    ensures var s, n := Show(u), |Decimal(u.id)|;
      && (u.id >= 0 ==> DigitsValue(s[9..9 + n]) == u.id)
      && (u.id < 0 ==> s[9] == '-' && DigitsValue(s[10..9 + n]) == -(u.id as int))
  {
    var s, d := Show(u), Decimal(u.id);
    assert s[9..9 + |d|] == d;
    DecimalValue(u.id);
    if u.id < 0 {
      assert s[10..9 + |d|] == d[1..];
    }
  }

  // ---------------------------------------------------------------------------------------------
  // Query construction

  /** `strings.Repeat(s, n)`. */
  function Repeat(s: string, n: nat): (r: string)
    ensures |r| == n * |s|
    ensures n >= 1 ==> r[..|s|] == s
  {
    if n == 0 then "" else s + Repeat(s, n - 1)
  }

  /** Repeating `a + b` times is repeating `a` times followed by repeating `b` times. */
  lemma {:induction false} RepeatSplit(s: string, a: nat, b: nat)
    ensures Repeat(s, a + b) == Repeat(s, a) + Repeat(s, b)
    decreases a
  {
    if a >= 1 {
      RepeatSplit(s, a - 1, b);
      assert Repeat(s, a + b) == s + Repeat(s, (a - 1) + b);
    }
  }

  /** Every block of `strings.Repeat(s, n)` is a copy of `s`: the `i`-th copy sits after `i`
      copies and before the remaining `n - 1 - i`. */
  lemma RepeatBlock(s: string, n: nat, i: nat)
    requires i < n
    ensures Repeat(s, n) == Repeat(s, i) + s + Repeat(s, n - 1 - i)
  {
    var left, right := Repeat(s, i), Repeat(s, n - 1 - i);
    RepeatSplit(s, i, n - i);
    assert Repeat(s, n - i) == s + right;
    assert left + (s + right) == left + s + right;
  }

  /** `strings.TrimRight(s, cut)` for a one-character cut set: every trailing `cut` is removed. */
  function TrimRight(s: string, cut: char): (r: string)
    ensures |r| <= |s| && r == s[..|r|]
    ensures r == [] || r[|r| - 1] != cut
    ensures forall i :: |r| <= i < |s| ==> s[i] == cut
  {
    if s != [] && s[|s| - 1] == cut then TrimRight(s[..|s| - 1], cut) else s
  }


  /** `n` question marks joined by commas, built one element at a time. */
  function Joined(n: nat): string
    decreases n
  {
    if n == 0 then "" else if n == 1 then "?" else "?," + Joined(n - 1)
  }

  lemma {:induction false} JoinedShape(n: nat)
    ensures n == 0 ==> Joined(n) == ""
    ensures n >= 1 ==> |Joined(n)| == 2 * n - 1
    ensures forall i :: 0 <= i < |Joined(n)| ==> Joined(n)[i] == if i % 2 == 0 then '?' else ','
    decreases n
  {
    if n >= 2 {
      JoinedShape(n - 1);
      var t := Joined(n - 1);
      assert Joined(n) == "?," + t;
      forall i | 0 <= i < |Joined(n)|
        ensures Joined(n)[i] == if i % 2 == 0 then '?' else ','
      {
        if i >= 2 {
          assert Joined(n)[i] == t[i - 2];
        }
      }
    }
  }

  lemma {:induction false} RepeatIsJoined(n: nat)
    requires n >= 1
    ensures Repeat("?,", n) == Joined(n) + ","
    decreases n
  {
    if n >= 2 {
      RepeatIsJoined(n - 1);
      assert Repeat("?,", n) == "?," + (Joined(n - 1) + ",");
    }
  }

  /** Trimming the trailing comma off `n` copies of `?,` leaves `n` question marks joined by commas. */
  lemma {:induction false} TrimmedRepeat(n: nat)
    ensures TrimRight(Repeat("?,", n), ',') == Joined(n)
  {
    if n >= 1 {
      RepeatIsJoined(n);
      JoinedShape(n);
      var s := Joined(n) + ",";
      assert s[..|s| - 1] == Joined(n);
      assert Joined(n)[|Joined(n)| - 1] == '?';
      assert TrimRight(s, ',') == TrimRight(Joined(n), ',');
    }
  }

  /** The `?,?,?` list of ListUsersByStatuses for `n` statuses: `n` question marks joined by commas. */
  function Placeholders(n: nat): (r: string)
    ensures r == Joined(n)
  {
    TrimmedRepeat(n);
    TrimRight(Repeat("?,", n), ',')
  }

  /** The placeholder list is `n` `?` separated by commas with no trailing comma: empty for no
      statuses, `2n - 1` characters otherwise, `?` at even and `,` at odd positions. */
  lemma {:induction false} PlaceholdersShape(n: nat)
    ensures n == 0 ==> Placeholders(n) == ""
    ensures n >= 1 ==> |Placeholders(n)| == 2 * n - 1
    ensures forall i :: 0 <= i < |Placeholders(n)| ==> Placeholders(n)[i] == if i % 2 == 0 then '?' else ','
  {
    JoinedShape(n);
  }

  /** The `allowed` table: the only ORDER BY clauses the query can carry. */
  const ALLOWED_ORDER: map<string, string> := map[
    "id_asc" := "id ASC",
    "name_asc" := "name ASC",
    "name_desc" := "name DESC"]

  /** The ORDER BY clause for a requested key: the table's entry for a known key, `id ASC` for any
      other, and never text taken from the caller. */
  function OrderBy(order: string): (r: string)
    ensures r in ALLOWED_ORDER.Values
    ensures r == "id ASC" || r == "name ASC" || r == "name DESC"
    ensures order in ALLOWED_ORDER ==> r == ALLOWED_ORDER[order]
    ensures order !in ALLOWED_ORDER ==> r == "id ASC"
  {
    if order in ALLOWED_ORDER then ALLOWED_ORDER[order] else ALLOWED_ORDER["id_asc"]
  }

  const SELECT_PREFIX := "SELECT id,name,email,status from users where status IN ("

  /** The query text for `n` statuses and a requested order: the fixed prefix, `n` question marks
      joined by commas, and the whitelisted clause OrderBy picks, so nothing of the caller's order
      key reaches the text. */
  function QueryText(n: nat, order: string): (r: string)
    ensures r == SELECT_PREFIX + Joined(n) + ") ORDER BY " + OrderBy(order)
  {
    SELECT_PREFIX + Placeholders(n) + ") ORDER BY " + OrderBy(order)
  }

  /** The `args` slice: a copy of the statuses, filled in place one slot at a time. */
  method Args(status: seq<string>) returns (args: seq<string>)
    ensures |args| == |status|
    ensures forall i :: 0 <= i < |args| ==> args[i] == status[i]
  {
    var slots := new string[|status|];
    for i := 0 to |status|
      invariant forall j :: 0 <= j < i ==> slots[j] == status[j]
    {
      slots[i] := status[i];
    }
    args := slots[..];
  }

  // ---------------------------------------------------------------------------------------------
  // Running the query

  datatype Query = Query(text: string, args: seq<string>)

  /** The four columns a row scans into. */
  datatype Row = Row(id: Int64, name: string, email: string, status: Option<string>)

  datatype Scan = Scanned(row: Row) | ScanFailed(detail: string)

  /** What the database answers: a failed query, or the rows with the error `rows.Err()` reports. */
  datatype Answer = QueryFailed(detail: string) | Rows(scans: seq<Scan>, err: Option<string>)

  /** The user a scanned row becomes: its age stays nil and its start time zero. */
  function FromRow(r: Row): (u: User)
    ensures u.id == r.id && u.name == r.name && u.email == r.email && u.status == r.status
    ensures u.age.None? && u.startedAt == ZERO_TIME
  {
    User(r.id, r.name, r.email, r.status, None, ZERO_TIME)
  }

  /** The users of the scans, or the first scan failure. */
  function ScanAll(scans: seq<Scan>): (r: Result<seq<User>, string>)
    ensures r.Ok? ==> |r.value| == |scans|
    ensures r.Err? ==> exists i :: 0 <= i < |scans| && scans[i] == ScanFailed(r.error)
    decreases |scans|
  {
    if scans == [] then Ok([])
    else
      var prefix := ScanAll(scans[..|scans| - 1]);
      if prefix.Err? then prefix
      else if scans[|scans| - 1].ScanFailed? then Err(scans[|scans| - 1].detail)
      else Ok(prefix.value + [FromRow(scans[|scans| - 1].row)])
  }

  /** ScanAll succeeds exactly when no scan failed, and then yields one user per row, in row order. */
  lemma {:induction false} ScanAllRows(scans: seq<Scan>)
    ensures ScanAll(scans).Ok? <==> forall i :: 0 <= i < |scans| ==> scans[i].Scanned?
    ensures ScanAll(scans).Ok? ==>
      && |ScanAll(scans).value| == |scans|
      && forall i :: 0 <= i < |scans| ==> ScanAll(scans).value[i] == FromRow(scans[i].row)
    decreases |scans|
  {
    if scans != [] {
      var init := scans[..|scans| - 1];
      ScanAllRows(init);
      assert forall i :: 0 <= i < |init| ==> init[i] == scans[i];
    }
  }

  /** Once a prefix of the scans has failed, the whole sequence fails with the same first failure. */
  lemma {:induction false} ScanAllFirstFailure(scans: seq<Scan>, k: nat)
    requires k <= |scans|
    requires ScanAll(scans[..k]).Err?
    ensures ScanAll(scans) == ScanAll(scans[..k])
    decreases |scans| - k
  {
    if k < |scans| {
      assert scans[..k + 1][..k] == scans[..k];
      ScanAllFirstFailure(scans, k + 1);
    } else {
      assert scans[..k] == scans;
    }
  }

  /** The result ListUsersByStatuses gives for an answer: a failed query is swallowed (no users, no
      error); a failed scan or a failed iteration is an error with no users. */
  function Collect(answer: Answer): (r: (seq<User>, Option<string>))
    ensures answer.QueryFailed? ==> r == ([], None)
    ensures r.1.Some? ==> r.0 == []
    ensures answer.Rows? ==> (r.1.None? <==> ScanAll(answer.scans).Ok? && answer.err.None?)
    ensures answer.Rows? && r.1.None? ==> r.0 == ScanAll(answer.scans).value
    ensures answer.Rows? && ScanAll(answer.scans).Err? ==> r.1 == Some(ScanAll(answer.scans).error)
    ensures answer.Rows? && ScanAll(answer.scans).Ok? ==> r.1 == answer.err
  {
    match answer
    case QueryFailed(_) => ([], None)
    case Rows(scans, err) =>
      match ScanAll(scans)
      case Err(detail) => ([], Some(detail))
      case Ok(users) => if err.Some? then ([], err) else (users, None)
  }

  /** ListUsersByStatuses: no statuses means no query and no users; otherwise the database is sent
      the built query with the statuses as its arguments, and its answer is collected. */
  method ListUsersByStatuses(status: seq<string>, order: string, db: Query -> Answer)
    returns (users: seq<User>, err: Option<string>)
    ensures status == [] ==> users == [] && err.None?
    ensures status != [] ==> (users, err) == Collect(db(Query(QueryText(|status|, order), status)))
  {
    users, err := [], None;
    var params := Placeholders(|status|);
    var args := Args(status);
    var orderBy := OrderBy(order);
    if |status| == 0 {
      return users, None;
    }
    var query := SELECT_PREFIX + params + ") ORDER BY " + orderBy;
    assert args == status;
    var answer := db(Query(query, args));
    if answer.QueryFailed? {
      return users, None;
    }
    var scans := answer.scans;
    var i := 0;
    while i < |scans|
      invariant 0 <= i <= |scans|
      invariant ScanAll(scans[..i]) == Ok(users)
    {
      assert scans[..i + 1][..i] == scans[..i];
      if scans[i].ScanFailed? {
        ScanAllFirstFailure(scans, i + 1);
        return [], Some(scans[i].detail);
      }
      users := users + [FromRow(scans[i].row)];
      i := i + 1;
    }
    assert scans[..i] == scans;
    assert ScanAll(scans) == Ok(users);
    if answer.err.Some? {
      return [], answer.err;
    }
  }
}
