/**
 * The utility functions the pages and services share: percentage and
 * budget-status classification, status colours, e-mail shape checking,
 * truncation, grouping, sorting by a key, and the text of a CSV export.
 */
module Helpers {
  import opened Seqs
  import opened Grouping
  import opened Sorting
  import opened Records

  // ------------------------------------------------------------ percentages

  /** `Math.round`: the nearest integer, halves rounded up. */
  function Round(x: real): (r: int)
    ensures r as real - 0.5 <= x < r as real + 0.5
  {
    (x + 0.5).Floor
  }

  /** `calculatePercentage(value, total)`: 0 for a zero total, else the rounded percentage. */
  function CalculatePercentage(value: real, total: real): (r: int)
    ensures total == 0.0 ==> r == 0
    ensures total != 0.0 ==>
              r as real - 0.5 <= value / total * 100.0 < r as real + 0.5
  {
    if total == 0.0 then 0 else Round(value / total * 100.0)
  }

  /** A part of a positive whole is between 0 and 100 percent of it. */
  lemma PercentageBounds(value: real, total: real)
    requires total > 0.0 && 0.0 <= value <= total
    ensures 0 <= CalculatePercentage(value, total) <= 100
  {
    var x := value / total * 100.0;
    assert 0.0 <= x <= 100.0 by {
      assert value / total <= 1.0;
    }
  }

  // ---------------------------------------------------------- status colours

  /** `colors[status] || 'info'` for the eight statuses the table names. */
  function GetStatusColor(status: string): (r: string)
    ensures r == "success" <==> status in {"active", "completed", "approved"}
    ensures r == "warning" <==> status in {"on_hold", "pending"}
    ensures r == "danger" <==> status in {"cancelled", "rejected"}
    ensures r == "info" <==>
              status !in {"active", "completed", "approved", "on_hold", "pending", "cancelled", "rejected"}
  {
    var colors := map[
      "planning" := "info", "active" := "success", "completed" := "success",
      "on_hold" := "warning", "cancelled" := "danger", "pending" := "warning",
      "approved" := "success", "rejected" := "danger"];
    if status in colors then colors[status] else "info"
  }

  datatype BudgetStatus = BudgetStatus(status: string, text: string)

  /**
   * `getBudgetStatus(spent, budget)`: the thresholds 100, 90 and 75 percent
   * are inclusive; in terms of the amounts themselves, a positive budget is
   * over budget exactly when at least all of it is spent. A zero budget (the
   * dashboard's total while there are no projects) gives Infinity for a
   * positive spend, which is over budget, and NaN or -Infinity otherwise,
   * which passes no threshold. A negative budget turns every comparison round.
   */
  function GetBudgetStatus(spent: real, budget: real): (r: BudgetStatus)
    ensures budget > 0.0 ==>
              && (r == BudgetStatus("danger", "Over Budget") <==> spent >= budget)
              && (r == BudgetStatus("warning", "Near Limit") <==> 0.9 * budget <= spent < budget)
              && (r == BudgetStatus("warning", "High Usage") <==> 0.75 * budget <= spent < 0.9 * budget)
              && (r == BudgetStatus("success", "On Track") <==> spent < 0.75 * budget)
    ensures budget == 0.0 ==>
              && (r == BudgetStatus("danger", "Over Budget") <==> spent > 0.0)
              && (r == BudgetStatus("success", "On Track") <==> spent <= 0.0)
    ensures budget < 0.0 ==>
              && (r == BudgetStatus("danger", "Over Budget") <==> spent <= budget)
              && (r == BudgetStatus("warning", "Near Limit") <==> budget < spent <= 0.9 * budget)
              && (r == BudgetStatus("warning", "High Usage") <==> 0.9 * budget < spent <= 0.75 * budget)
              && (r == BudgetStatus("success", "On Track") <==> 0.75 * budget < spent)
  {
    if budget == 0.0 then
      if spent > 0.0 then BudgetStatus("danger", "Over Budget") else BudgetStatus("success", "On Track")
    else
      var percentage := spent / budget * 100.0;
      if budget > 0.0 then
        PercentThreshold(spent, budget, 100.0);
        PercentThreshold(spent, budget, 90.0);
        PercentThreshold(spent, budget, 75.0);
        StatusOf(percentage)
      else
        NegativePercentThreshold(spent, budget, 100.0);
        NegativePercentThreshold(spent, budget, 90.0);
        NegativePercentThreshold(spent, budget, 75.0);
        StatusOf(percentage)
  }

  /** The chain of inclusive thresholds on a finite percentage. */
  function StatusOf(percentage: real): BudgetStatus
  {
    if percentage >= 100.0 then BudgetStatus("danger", "Over Budget")
    else if percentage >= 90.0 then BudgetStatus("warning", "Near Limit")
    else if percentage >= 75.0 then BudgetStatus("warning", "High Usage")
    else BudgetStatus("success", "On Track")
  }

  // ----------------------------------------------------------------- e-mail

  /** The characters the regular-expression class `\s` matches. */
  predicate IsSpace(c: char)
  {
    var n := c as int;
    (9 <= n <= 13) || n == 0x20 || n == 0xA0 || n == 0x1680 || (0x2000 <= n <= 0x200A)
    || n == 0x2028 || n == 0x2029 || n == 0x202F || n == 0x205F || n == 0x3000 || n == 0xFEFF
  }

  /** The class `[^\s@]`. */
  predicate Plain(c: char)
  {
    !IsSpace(c) && c != '@'
  }

  predicate AllPlain(s: string)
  {
    forall i :: 0 <= i < |s| ==> Plain(s[i])
  }

  /**
   * The language of `^[^\s@]+@[^\s@]+\.[^\s@]+$`: a non-empty local part
   * and a domain, neither holding a space or an '@', separated by the one
   * '@', where the domain has a '.' with at least one character on each side.
   */
  ghost predicate EmailShape(email: string)
  {
    exists a :: 0 < a < |email| && email[a] == '@'
      && AllPlain(email[..a]) && AllPlain(email[a + 1..])
      && exists k :: a + 1 < k < |email| - 1 && email[k] == '.'
  }

  /** The states of a left-to-right scan for that expression. */
  datatype ScanState = Start | Local | AtSign | Domain | Dot | Accept | Reject

  function DomainStep(q: ScanState, c: char): ScanState
  {
    match q
    case AtSign => Domain
    case Domain => if c == '.' then Dot else Domain
    case Dot => Accept
    case Accept => Accept
    case _ => Reject
  }

  function Step(q: ScanState, c: char): ScanState
  {
    match q
    case Reject => Reject
    case Start => if Plain(c) then Local else Reject
    case Local => if c == '@' then AtSign else if Plain(c) then Local else Reject
    case _ => if Plain(c) then DomainStep(q, c) else Reject
  }

  function Scan(s: string): ScanState
  {
    if s == [] then Start else Step(Scan(s[..|s| - 1]), s[|s| - 1])
  }

  /** `validateEmail(email)`, as the regular expression's automaton. */
  function ValidateEmail(email: string): bool
  {
    Scan(email) == Accept
  }

  function FirstAt(s: string): (i: nat)
    ensures i <= |s|
    ensures i < |s| ==> s[i] == '@'
    ensures forall m :: 0 <= m < i ==> s[m] != '@'
  {
    if s == [] then 0 else if s[0] == '@' then 0 else 1 + FirstAt(s[1..])
  }

  /** What the scan of a domain part has seen, classified by the part itself. */
  ghost function DomainState(d: string): ScanState
  {
    if d == [] then AtSign
    else if !exists k :: 1 <= k < |d| && d[k] == '.' then Domain
    else if exists k :: 1 <= k < |d| - 1 && d[k] == '.' then Accept
    else Dot
  }

  /** What the scan has seen, classified by the text itself. */
  ghost function Classify(s: string): ScanState
  {
    var a := FirstAt(s);
    if a == |s| then (if s == [] then Start else if AllPlain(s) then Local else Reject)
    else if a == 0 || !AllPlain(s[..a]) || !AllPlain(s[a + 1..]) then Reject
    else DomainState(s[a + 1..])
  }

  lemma DomainStateStep(d: string, c: char)
    requires Plain(c)
    ensures DomainState(d + [c]) == DomainStep(DomainState(d), c)
  {
    var d' := d + [c];
    if DomainState(d) == Dot {
      var k :| 1 <= k < |d| && d[k] == '.';
      assert d'[k] == '.';
    } else if DomainState(d) == Accept {
      var k :| 1 <= k < |d| - 1 && d[k] == '.';
      assert d'[k] == '.';
    } else if DomainState(d) == Domain && c == '.' {
      assert d'[|d|] == '.';
    }
  }

  lemma {:induction false} ScanClassify(s: string)
    ensures Scan(s) == Classify(s)
  {
    if s != [] {
      ScanClassify(s[..|s| - 1]);
      ClassifyStep(s);
    }
  }

  /** Classifying one more character agrees with one step of the scan. */
  lemma ClassifyStep(s: string)
    requires s != []
    ensures Classify(s) == Step(Classify(s[..|s| - 1]), s[|s| - 1])
  {
    var init, c := s[..|s| - 1], s[|s| - 1];
    if FirstAt(init) < |init| {
      ClassifyAfterAt(s, init, c);
    } else if c == '@' {
      ClassifyFirstAt(s, init);
    } else {
      ClassifyNoAt(s, init, c);
    }
  }

  lemma ClassifyAfterAt(s: string, init: string, c: char)
    requires s == init + [c] && FirstAt(init) < |init|
    ensures Classify(s) == Step(Classify(init), c)
  {
    var a := FirstAt(init);
    var d := init[a + 1..];
    AfterAtParts(s, init, c, a);
    AllPlainAppend(d, c);
    if a == 0 || !AllPlain(init[..a]) || !AllPlain(d) {
      assert Classify(init) == Reject;
      assert Classify(s) == Reject;
    } else {
      assert Classify(init) == DomainState(d);
      assert Classify(s) == if Plain(c) then DomainState(d + [c]) else Reject;
      DomainStateNotStart(d);
      if Plain(c) {
        DomainStateStep(d, c);
      }
    }
  }

  lemma DomainStateNotStart(d: string)
    ensures DomainState(d) in {AtSign, Domain, Dot, Accept}
  {
  }

  lemma AfterAtParts(s: string, init: string, c: char, a: nat)
    requires s == init + [c] && a == FirstAt(init) && a < |init|
    ensures FirstAt(s) == a && s[..a] == init[..a] && s[a + 1..] == init[a + 1..] + [c]
  {
    FirstAtIs(s, a);
  }

  /** The first '@' is where one stands with none before it. */
  lemma FirstAtIs(s: string, a: nat)
    requires a < |s| && s[a] == '@' && forall m :: 0 <= m < a ==> s[m] != '@'
    ensures FirstAt(s) == a
  {
  }

  lemma AllPlainAppend(d: string, c: char)
    ensures AllPlain(d + [c]) <==> AllPlain(d) && Plain(c)
  {
    if AllPlain(d + [c]) {
      assert (d + [c])[|d|] == c;
      forall i | 0 <= i < |d| ensures Plain(d[i]) {
        assert (d + [c])[i] == d[i];
      }
    }
  }

  lemma ClassifyFirstAt(s: string, init: string)
    requires s == init + ['@'] && FirstAt(init) == |init|
    ensures Classify(s) == Step(Classify(init), '@')
  {
    assert FirstAt(s) == |init|;
    assert s[..|init|] == init;
    assert s[|init| + 1..] == [];
  }

  lemma ClassifyNoAt(s: string, init: string, c: char)
    requires s == init + [c] && FirstAt(init) == |init| && c != '@'
    ensures Classify(s) == Step(Classify(init), c)
  {
    assert FirstAt(s) == |s|;
    assert s[..|init|] == init;
    if !Plain(c) {
      assert s[|s| - 1] == c;
    }
  }

  /** The automaton accepts exactly the texts of the expression's language. */
  lemma ValidateEmailSpec(email: string)
    ensures ValidateEmail(email) <==> EmailShape(email)
  {
    if ValidateEmail(email) {
      ValidateEmailSound(email);
    }
    if EmailShape(email) {
      ValidateEmailComplete(email);
    }
  }

  lemma ValidateEmailSound(email: string)
    requires ValidateEmail(email)
    ensures EmailShape(email)
  {
    ScanClassify(email);
    var a := FirstAt(email);
    var d := email[a + 1..];
    var k :| 1 <= k < |d| - 1 && d[k] == '.';
    assert email[a + 1 + k] == '.';
  }

  lemma ValidateEmailComplete(email: string)
    requires EmailShape(email)
    ensures ValidateEmail(email)
  {
    var b :| 0 < b < |email| && email[b] == '@'
      && AllPlain(email[..b]) && AllPlain(email[b + 1..])
      && exists k :: b + 1 < k < |email| - 1 && email[k] == '.';
    var k :| b + 1 < k < |email| - 1 && email[k] == '.';
    FirstAtPlain(email, b);
    var d := email[b + 1..];
    var j := k - b - 1;
    assert |d| == |email| - b - 1 && 1 <= j < |d| - 1;
    assert d[j] == '.';
    DomainAccepts(d, j);
    ClassifyAccept(email, b);
    ScanClassify(email);
  }

  lemma ClassifyAccept(s: string, b: nat)
    requires 0 < b < |s| && FirstAt(s) == b
    requires AllPlain(s[..b]) && AllPlain(s[b + 1..]) && DomainState(s[b + 1..]) == Accept
    ensures Classify(s) == Accept
  {
  }

  /** An '@' preceded by plain characters only is the first one. */
  lemma FirstAtPlain(s: string, b: nat)
    requires b < |s| && s[b] == '@' && AllPlain(s[..b])
    ensures FirstAt(s) == b
  {
    forall m | 0 <= m < b ensures s[m] != '@' {
      assert s[..b][m] == s[m];
    }
    FirstAtIs(s, b);
  }

  /** A domain with a '.' that has a character on each side is accepted. */
  lemma DomainAccepts(d: string, k: nat)
    requires 1 <= k < |d| - 1 && d[k] == '.'
    ensures DomainState(d) == Accept
  {
  }

  /** Texts inside the regular expression's language. */
  lemma ValidateEmailAccepts()
    ensures ValidateEmail("a@b.c")
    ensures ValidateEmail("a@b..")
  {
    assert Scan("a") == Local;
    assert "a@"[..1] == "a";
    assert Scan("a@") == AtSign;
    assert "a@b"[..2] == "a@";
    assert Scan("a@b") == Domain;
    assert "a@b."[..3] == "a@b";
    assert Scan("a@b.") == Dot;
    assert "a@b.c"[..4] == "a@b.";
    assert "a@b.."[..4] == "a@b.";
  }

  /** Texts just outside it: no dot, a second '@', a space. */
  lemma ValidateEmailRejects()
    ensures !ValidateEmail("a@b")
    ensures !ValidateEmail("a@@b.c")
    ensures !ValidateEmail("a b@c.d")
  {
    assert Scan("a") == Local;
    assert "a@"[..1] == "a";
    assert Scan("a@") == AtSign;
    assert "a@b"[..2] == "a@";
    assert "a@@"[..2] == "a@";
    assert Scan("a@@") == Reject;
    assert "a@@b"[..3] == "a@@";
    assert "a@@b."[..4] == "a@@b";
    assert "a@@b.c"[..5] == "a@@b.";
    assert "a "[..1] == "a";
    assert Scan("a ") == Reject;
    assert "a b"[..2] == "a ";
    assert "a b@"[..3] == "a b";
    assert "a b@c"[..4] == "a b@";
    assert "a b@c."[..5] == "a b@c";
    assert "a b@c.d"[..6] == "a b@c.";
  }

  // ------------------------------------------------------------- truncation

  /** `text.substring(0, n)` clamps a negative `n` to 0. */
  function Clamp(n: int): nat
  {
    if n < 0 then 0 else n
  }

  /** The default `maxLength` of `truncateText`. */
  const DefaultMaxLength: int := 50

  /**
   * `truncateText(text, maxLength)`: an empty text or one no longer than
   * `maxLength` (50 unless given) is returned as it is; any other is cut to
   * its first `maxLength` characters (none when `maxLength` is negative)
   * followed by "...".
   */
  function TruncateText(text: string, maxLength: int := DefaultMaxLength): (r: string)
    ensures text == "" || |text| <= maxLength ==> r == text
    ensures text != "" && |text| > maxLength ==>
              && |r| == Clamp(maxLength) + 3
              && r[..Clamp(maxLength)] == text[..Clamp(maxLength)]
              && r[Clamp(maxLength)..] == "..."
  {
    if text == "" || |text| <= maxLength then text
    else text[..Clamp(maxLength)] + "..."
  }

  /** Truncating an already truncated text changes nothing. */
  lemma TruncateIdempotent(text: string, maxLength: int)
    ensures TruncateText(TruncateText(text, maxLength), maxLength) == TruncateText(text, maxLength)
  {
    var r := TruncateText(text, maxLength);
    if r != text {
      assert r[..Clamp(maxLength)] + "..." == r;
    }
  }

  // --------------------------------------------------------------- grouping

  /** `groupBy(items, key)`, pushing into the accumulator as `reduce` does. */
  method GroupBy<K(==), T>(items: seq<T>, key: T -> K) returns (groups: seq<(K, seq<T>)>)
    ensures groups == Group(items, key)
  {
    groups := [];
    for n := 0 to |items|
      invariant groups == Group(items[..n], key)
    {
      var item := items[n];
      var k := key(item);
      assert items[..n + 1][..n] == items[..n];
      var i := IndexOf(groups, k);
      if i < |groups| {
        groups := groups[i := (k, groups[i].1 + [item])];
      } else {
        groups := groups + [(k, [item])];
      }
    }
    assert items[..|items|] == items;
  }

  // ---------------------------------------------------------------- sorting

  /**
   * `sortBy(items, key, order)`: a sorted copy, ascending for "asc" and
   * descending for any other order; the comparator is a consistent total
   * preorder on integer keys, so the stable sort decides the result.
   */
  function SortBy<T>(items: seq<T>, key: T -> int, order: string): (r: seq<T>)
    ensures |r| == |items|
  {
    if order == "asc" then StableSort(items, key) else StableSort(items, Negated(key))
  }

  /**
   * `sortBy` returns a permutation of its input, ordered by the key in the
   * requested direction, and elements with equal keys keep their order.
   */
  lemma SortBySpec<T>(items: seq<T>, key: T -> int, order: string, k: int)
    ensures multiset(SortBy(items, key, order)) == multiset(items)
    ensures order == "asc" ==> SortedBy(SortBy(items, key, order), key)
    ensures order != "asc" ==>
              forall i, j :: 0 <= i < j < |items| ==>
                key(SortBy(items, key, order)[i]) >= key(SortBy(items, key, order)[j])
    ensures Filter(SortBy(items, key, order), KeyIs(key, k)) == Filter(items, KeyIs(key, k))
  {
    if order == "asc" {
      StableSortPermutes(items, key);
      StableSortSorted(items, key);
      StableSortStable(items, key, k);
    } else {
      StableSortPermutes(items, Negated(key));
      SortDescendingOrdered(items, key);
      SortDescendingStable(items, key, k);
    }
  }

  // -------------------------------------------------------------------- CSV

  /**
   * A cell value: a string, any other value already in its `String(value)`
   * form, or a missing (`undefined`/`null`) value, which `join` writes as
   * the empty string.
   */
  datatype Value = Text(s: string) | Shown(s: string) | Absent

  /** A data row: its keys, in `Object.keys` order, with their values. */
  type Row = seq<(string, Value)>

  predicate NeedsQuoting(s: string)
  {
    ',' in s || '"' in s
  }

  /** `value.replace(/"/g, '""')` */
  function DoubleQuotes(s: string): (r: string)
    ensures |r| >= |s|
  {
    if s == [] then []
    else (if s[0] == '"' then "\"\"" else [s[0]]) + DoubleQuotes(s[1..])
  }

  /** How one cell is written: strings holding ',' or '"' are quoted, with quotes doubled. */
  function EscapeField(v: Value): string
  {
    match v
    case Text(s) => if NeedsQuoting(s) then "\"" + DoubleQuotes(s) + "\"" else s
    case Shown(s) => s
    case Absent => ""
  }

  /** Reading one field back: strips enclosing quotes and halves doubled ones. */
  function Undouble(s: string): string
  {
    if |s| >= 2 && s[0] == '"' && s[1] == '"' then "\"" + Undouble(s[2..])
    else if s == [] then []
    else [s[0]] + Undouble(s[1..])
  }

  function Unescape(field: string): string
  {
    if |field| >= 2 && field[0] == '"' && field[|field| - 1] == '"'
    then Undouble(field[1..|field| - 1])
    else field
  }

  lemma {:induction false} UndoubleDoubleQuotes(s: string)
    ensures Undouble(DoubleQuotes(s)) == s
  {
    if s != [] {
      UndoubleDoubleQuotes(s[1..]);
      var rest := DoubleQuotes(s[1..]);
      if s[0] == '"' {
        assert DoubleQuotes(s) == "\"\"" + rest;
        assert (DoubleQuotes(s))[2..] == rest;
      } else {
        assert DoubleQuotes(s) == [s[0]] + rest;
        assert (DoubleQuotes(s))[1..] == rest;
      }
    }
  }

  /**
   * A string cell is written so that it reads back as the same string, and
   * it is written unchanged exactly when it holds neither ',' nor '"'.
   */
  lemma EscapeFieldSpec(s: string)
    ensures Unescape(EscapeField(Text(s))) == s
    ensures EscapeField(Text(s)) == s <==> !NeedsQuoting(s)
  {
    if NeedsQuoting(s) {
      var f := EscapeField(Text(s));
      assert f[1..|f| - 1] == DoubleQuotes(s);
      UndoubleDoubleQuotes(s);
    }
  }

  /** A line break inside a string cell is written as it is, unquoted. */
  lemma LineBreakNotQuoted()
    ensures EscapeField(Text("a\nb")) == "a\nb"
  {
  }

  /** `parts.join(sep)` */
  function Join(parts: seq<string>, sep: string): string
  {
    if parts == [] then ""
    else if |parts| == 1 then parts[0]
    else Join(parts[..|parts| - 1], sep) + sep + parts[|parts| - 1]
  }

  /** `row[header]`: the value under the first equal key, or a missing value. */
  function Lookup(row: Row, header: string): Value
  {
    if row == [] then Absent else if row[0].0 == header then row[0].1 else Lookup(row[1..], header)
  }

  function Keys(row: Row): seq<string>
  {
    seq(|row|, i requires 0 <= i < |row| => row[i].0)
  }

  function RowLine(headers: seq<string>, row: Row): string
  {
    Join(seq(|headers|, i requires 0 <= i < |headers| => EscapeField(Lookup(row, headers[i]))), ",")
  }

  function Lines(headers: seq<string>, data: seq<Row>): seq<string>
  {
    seq(|data|, i requires 0 <= i < |data| => RowLine(headers, data[i]))
  }

  /**
   * The text `exportToCSV` puts in the file: nothing for empty data,
   * otherwise the first row's keys as the header line and one line per row.
   */
  function CsvText(data: seq<Row>): (r: Option<string>)
    ensures r.None? <==> data == []
  {
    if data == [] then None
    else
      var headers := Keys(data[0]);
      Some(Join([Join(headers, ",")] + Lines(headers, data), "\n"))
  }

  function Occurrences(s: string, c: char): nat
  {
    if s == [] then 0 else Occurrences(s[..|s| - 1], c) + (if s[|s| - 1] == c then 1 else 0)
  }

  lemma {:induction false} OccurrencesConcat(a: string, b: string, c: char)
    ensures Occurrences(a + b, c) == Occurrences(a, c) + Occurrences(b, c)
  {
    if b != [] {
      assert (a + b)[..|a + b| - 1] == a + b[..|b| - 1];
      OccurrencesConcat(a, b[..|b| - 1], c);
    } else {
      assert a + b == a;
    }
  }

  lemma {:induction false} OccurrencesNone(s: string, c: char)
    requires c !in s
    ensures Occurrences(s, c) == 0
  {
    if s != [] {
      OccurrencesNone(s[..|s| - 1], c);
    }
  }

  /** Joining parts free of `c` with a separator that is exactly `c` puts one `c` between neighbours. */
  lemma {:induction false} JoinOccurrences(parts: seq<string>, c: char)
    requires |parts| > 0
    requires forall i :: 0 <= i < |parts| ==> c !in parts[i]
    ensures Occurrences(Join(parts, [c]), c) == |parts| - 1
  {
    var n := |parts| - 1;
    OccurrencesNone(parts[n], c);
    if n > 0 {
      JoinOccurrences(parts[..n], c);
      OccurrencesConcat(Join(parts[..n], [c]) + [c], parts[n], c);
      OccurrencesConcat(Join(parts[..n], [c]), [c], c);
      assert [c][..0] == [];
    }
  }

  lemma {:induction false} JoinFree(parts: seq<string>, sep: string, c: char)
    requires c !in sep
    requires forall i :: 0 <= i < |parts| ==> c !in parts[i]
    ensures c !in Join(parts, sep)
  {
    if |parts| > 1 {
      JoinFree(parts[..|parts| - 1], sep, c);
    }
  }

  /** No key and no written cell of `data` holds a line break. */
  ghost predicate SingleLineCells(data: seq<Row>)
  {
    forall r: Row, i | r in data && 0 <= i < |r| ::
      '\n' !in r[i].0 && '\n' !in EscapeField(r[i].1)
  }

  lemma {:induction false} LookupSingleLine(row: Row, header: string)
    requires forall i :: 0 <= i < |row| ==> '\n' !in EscapeField(row[i].1)
    ensures '\n' !in EscapeField(Lookup(row, header))
  {
    if row != [] && row[0].0 != header {
      LookupSingleLine(row[1..], header);
    }
  }

  /**
   * When no key or cell holds a line break, the CSV text has exactly one
   * line break per data row: a header line and one line per row.
   */
  lemma CsvLineCount(data: seq<Row>)
    requires data != [] && SingleLineCells(data)
    ensures Occurrences(CsvText(data).value, '\n') == |data|
  {
    var headers := Keys(data[0]);
    var parts := [Join(headers, ",")] + Lines(headers, data);
    JoinFree(headers, ",", '\n');
    forall j | 0 <= j < |data| ensures '\n' !in RowLine(headers, data[j]) {
      var cells := seq(|headers|, i requires 0 <= i < |headers| => EscapeField(Lookup(data[j], headers[i])));
      forall i | 0 <= i < |headers| ensures '\n' !in cells[i] {
        LookupSingleLine(data[j], headers[i]);
      }
      JoinFree(cells, ",", '\n');
    }
    JoinOccurrences(parts, '\n');
  }
}
