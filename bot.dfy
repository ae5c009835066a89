/** The Telegram bot: reading a store number from a chat message, picking
    the store's rows out of the test data, and choosing the reply. */
module Bot {
  import opened Values
  import opened Digits
  import opened Tables

  // ---------------------------------------------------------------------
  // parse_message

  /** `text.replace('/', '')`: every slash goes, wherever it stands. */
  function RemoveSlashes(s: string): (r: string)
    ensures '/' !in r && |r| <= |s|
    ensures forall c :: c != '/' ==> multiset(r)[c] == multiset(s)[c]
  {
    if s == [] then ""
    else
      assert s == [s[0]] + s[1..];
      (if s[0] == '/' then "" else [s[0]]) + RemoveSlashes(s[1..])
  }

  /** Removing slashes works piece by piece, so it keeps the order of the
      other characters. */
  lemma {:induction false} RemoveSlashesConcat(a: string, b: string)
    ensures RemoveSlashes(a + b) == RemoveSlashes(a) + RemoveSlashes(b)
  {
    if a != [] {
      assert (a + b)[1..] == a[1..] + b;
      RemoveSlashesConcat(a[1..], b);
    } else {
      assert a + b == b;
    }
  }

  /** Text without a slash is left as it is. */
  lemma {:induction false} RemoveSlashesKeeps(s: string)
    requires '/' !in s
    ensures RemoveSlashes(s) == s
  {
    if s != [] {
      RemoveSlashesKeeps(s[1..]);
    }
  }

  /** The whitespace `int()` strips from both ends (the ASCII part of
      `str.isspace`). */
  predicate IsSpace(c: char) {
    c == ' ' || (9 <= c as int <= 13) || (28 <= c as int <= 31)
  }

  function StripStart(s: string): (r: string)
    ensures |r| <= |s| && (r != [] ==> !IsSpace(r[0]))
    ensures r == s[|s| - |r|..]
  {
    if s != [] && IsSpace(s[0]) then StripStart(s[1..]) else s
  }

  function StripEnd(s: string): (r: string)
    ensures |r| <= |s| && (r != [] ==> !IsSpace(r[|r| - 1]))
    ensures r == s[..|r|]
  {
    if s != [] && IsSpace(s[|s| - 1]) then StripEnd(s[..|s| - 1]) else s
  }

  function Strip(s: string): string {
    StripEnd(StripStart(s))
  }

  /** Digits with single underscores between them, as `int()` accepts them. */
  predicate IsDigitRun(s: string) {
    && |s| >= 1 && IsDigit(s[0]) && IsDigit(s[|s| - 1])
    && (forall k :: 0 <= k < |s| ==> IsDigit(s[k]) || s[k] == '_')
    && (forall k :: 0 <= k < |s| - 1 ==> !(s[k] == '_' && s[k + 1] == '_'))
  }

  function DropUnderscores(s: string): (r: string)
    requires forall k :: 0 <= k < |s| ==> IsDigit(s[k]) || s[k] == '_'
    ensures AllDigits(r)
  {
    if s == [] then "" else (if s[0] == '_' then "" else [s[0]]) + DropUnderscores(s[1..])
  }

  /** The value of a digit run, underscores left out. */
  function RunValue(body: string): nat
    requires IsDigitRun(body)
  {
    Decimal(DropUnderscores(body))
  }

  /** An optional sign, then a digit run. */
  function ParseSigned(b: string): (r: Option<int>) {
    if |b| > 0 && b[0] == '-' then (if IsDigitRun(b[1..]) then Some(-(RunValue(b[1..]) as int)) else None)
    else if |b| > 0 && b[0] == '+' then (if IsDigitRun(b[1..]) then Some(RunValue(b[1..])) else None)
    else if IsDigitRun(b) then Some(RunValue(b))
    else None
  }

  /** Base-10 `int()` of a string: surrounding whitespace, an optional sign,
      then a digit run. */
  function ParseInt(s: string): Option<int> {
    ParseSigned(Strip(s))
  }

  /** ParseInt needs a digit. */
  lemma ParseIntNeedsDigit(s: string)
    requires forall k :: 0 <= k < |s| ==> !IsDigit(s[k])
    ensures ParseInt(s) == None
  {
    var a := StripStart(s);
    var b := StripEnd(a);
    assert forall k :: 0 <= k < |a| ==> a[k] == s[|s| - |a| + k];
    assert forall k :: 0 <= k < |b| ==> b[k] == a[k];
    NoDigitRun(b);
    if |b| > 0 {
      NoDigitRun(b[1..]);
    }
  }

  lemma NoDigitRun(b: string)
    requires forall k :: 0 <= k < |b| ==> !IsDigit(b[k])
    ensures !IsDigitRun(b)
  {
  }

  /** Python's `str` of an integer. */
  function IntText(n: int): string {
    if n < 0 then "-" + Render(-n) else Render(n)
  }

  lemma {:induction false} DropUnderscoresOfDigits(s: string)
    requires AllDigits(s)
    ensures DropUnderscores(s) == s
  {
    if s != [] {
      DropUnderscoresOfDigits(s[1..]);
      assert s == [s[0]] + s[1..];
    }
  }

  lemma DigitRunOfDigits(t: string)
    requires AllDigits(t) && |t| >= 1
    ensures IsDigitRun(t) && DropUnderscores(t) == t
  {
    DropUnderscoresOfDigits(t);
  }

  /** Text that neither starts nor ends with whitespace is not stripped. */
  lemma StripOfTrimmed(s: string)
    requires s != [] && !IsSpace(s[0]) && !IsSpace(s[|s| - 1])
    ensures Strip(s) == s
  {
  }

  /** The text of an integer: digits, after a minus sign when negative. */
  lemma IntTextChars(n: int)
    ensures var s := IntText(n); |s| >= 1 && !IsSpace(s[0]) && !IsSpace(s[|s| - 1])
    ensures var s := IntText(n); forall k :: 0 <= k < |s| ==> IsDigit(s[k]) || (k == 0 && s[k] == '-')
  {
    if n < 0 {
      var t := Render(-n);
      var s := "-" + t;
      assert forall k :: 1 <= k < |s| ==> s[k] == t[k - 1];
    }
  }

  lemma ParseSignedOfRun(t: string)
    requires IsDigitRun(t)
    ensures ParseSigned(t) == Some(RunValue(t))
    ensures ParseSigned("-" + t) == Some(-(RunValue(t) as int))
  {
    assert ("-" + t)[0] == '-' && ("-" + t)[1..] == t;
  }

  /** Reading back the text of an integer gives that integer. */
  lemma ParseIntText(n: int)
    ensures ParseInt(IntText(n)) == Some(n)
  {
    var m: nat := if n < 0 then -n else n;
    var t := Render(m);
    DecimalOfRender(m);
    DigitRunOfDigits(t);
    ParseSignedOfRun(t);
    IntTextChars(n);
    StripOfTrimmed(IntText(n));
    assert IntText(n) == if n < 0 then "-" + t else t;
  }

  /** What the bot reads from the store id: a number, or the `'error'` sentinel. */
  datatype StoreId = Id(n: int) | ErrorSentinel

  /** The part of a Telegram update the bot reads: `message.chat.id`, and
      `message.text`, which updates without text lack. */
  datatype Update = Update(chatId: int, text: Option<string>)

  /** `parse_message`: the chat id, and the store id from the text with its
      slashes removed. */
  function ParseMessage(u: Update): (r: Result<(int, StoreId)>)
    ensures r.Err? <==> u.text.None?
    ensures r.Err? ==> r.error == KeyError("text")
    ensures r.Ok? ==> r.value.0 == u.chatId
    ensures r.Ok? ==> (r.value.1 == ErrorSentinel <==> ParseInt(RemoveSlashes(u.text.value)).None?)
    ensures r.Ok? && ParseInt(RemoveSlashes(u.text.value)).Some? ==>
      r.value.1 == Id(ParseInt(RemoveSlashes(u.text.value)).value)
  {
    match u.text
    case None => Err(KeyError("text"))
    case Some(s) =>
      match ParseInt(RemoveSlashes(s))
      case None => Ok((u.chatId, ErrorSentinel))
      case Some(n) => Ok((u.chatId, Id(n)))
  }

  /** A command made of slashes and a number gives that number. */
  lemma CommandStoreId(chat: int, n: int)
    ensures ParseMessage(Update(chat, Some("/" + IntText(n)))) == Ok((chat, Id(n)))
  {
    var t := IntText(n);
    assert RemoveSlashes("/" + t) == t by {
      assert '/' !in t by {
        IntTextChars(n);
      }
      RemoveSlashesConcat("/", t);
      RemoveSlashesKeeps(t);
      assert RemoveSlashes("/") == "";
      assert "" + t == t;
    }
    ParseIntText(n);
  }

  /** A text with no digit in it (`/start`, say) gives the sentinel. */
  lemma NoDigitGivesSentinel(chat: int, s: string)
    requires forall k :: 0 <= k < |s| ==> !IsDigit(s[k])
    ensures ParseMessage(Update(chat, Some(s))) == Ok((chat, ErrorSentinel))
  {
    var r := RemoveSlashes(s);
    forall k | 0 <= k < |r|
      ensures !IsDigit(r[k])
    {
      assert r[k] in multiset(r);
      assert r[k] in multiset(s);
      assert r[k] in s;
    }
    ParseIntNeedsDigit(r);
  }

  // ---------------------------------------------------------------------
  // load_dataset

  /** What `load_dataset` hands on: the store's rows (serialised by
      `json.dumps`), or the no-data sentinel string. */
  datatype Loaded = Payload(table: Table) | NoData

  /** `df_test[df_test['Store'] == store_id]` on the merged test and store
      data, and the sentinel when it is empty. */
  function LoadDataset(merged: Table, id: int): (r: Loaded)
    requires WellFormed(merged) && "Store" in merged.columns
    ensures r.NoData? <==> CountEq(Column(merged, "Store"), id) == 0
    ensures r.Payload? ==> r.table.columns == merged.columns && WellFormed(r.table)
    ensures r.Payload? ==> |r.table.rows| == CountEq(Column(merged, "Store"), id)
    ensures r.Payload? ==> forall i :: 0 <= i < |r.table.rows| ==> NumEquals(Column(r.table, "Store")[i], id)
  {
    var k := IndexOf(merged.columns, "Store");
    var rows := KeepWhere(merged.rows, k, id);
    KeptRowCount(merged, "Store", id);
    KeptSameWidth(merged.rows, k, |merged.columns|, id);
    if rows == [] then NoData else Payload(Table(merged.columns, rows))
  }

  /** The payload holds every row of the store and no other row. */
  lemma LoadDatasetRows(merged: Table, id: int, row: seq<Value>)
    requires WellFormed(merged) && "Store" in merged.columns
    requires LoadDataset(merged, id).Payload?
    ensures row in LoadDataset(merged, id).table.rows <==> row in merged.rows && NumEquals(row[IndexOf(merged.columns, "Store")], id)
  {
    KeepWhereMembers(merged.rows, IndexOf(merged.columns, "Store"), id);
  }

  // ---------------------------------------------------------------------
  // index

  /** A predicted sales cell as `sum()` adds it: missing cells add nothing. */
  function SalesOf(v: Value): real {
    match AsReal(v)
    case Some(x) => x
    case None => 0.0
  }

  function Sum(vs: seq<Value>): real {
    if vs == [] then 0.0 else SalesOf(vs[0]) + Sum(vs[1..])
  }

  /** Reference total: the sales of the rows whose store is n. */
  function SumWhere(stores: seq<Value>, sales: seq<Value>, n: int): real
    requires |stores| == |sales|
  {
    if stores == [] then 0.0
    else (if NumEquals(stores[0], n) then SalesOf(sales[0]) else 0.0) + SumWhere(stores[1..], sales[1..], n)
  }

  lemma {:induction false} SumOfKept(sales: seq<Value>, stores: seq<Value>, n: int)
    requires |sales| == |stores|
    ensures Sum(KeepBy(sales, stores, n)) == SumWhere(stores, sales, n)
  {
    if sales != [] {
      SumOfKept(sales[1..], stores[1..], n);
      var head := if NumEquals(stores[0], n) then [sales[0]] else [];
      var rest := KeepBy(sales[1..], stores[1..], n);
      SumConcat(head, rest);
    }
  }

  lemma {:induction false} SumConcat(a: seq<Value>, b: seq<Value>)
    ensures Sum(a + b) == Sum(a) + Sum(b)
  {
    if a == [] {
      assert a + b == b;
    } else {
      assert (a + b)[1..] == a[1..] + b;
      SumConcat(a[1..], b);
    }
  }

  /** `sales = df_predicted[df_predicted['store'] == store_id]`, then the
      grouped sum of `predicted_sales` and `values[0]` of it. */
  function Forecast(pred: Table, n: int): (r: Result<real>)
    requires WellFormed(pred)
    ensures "store" !in pred.columns ==> r == Err(KeyError("store"))
    ensures "store" in pred.columns && "predicted_sales" !in pred.columns ==> r == Err(KeyError("predicted_sales"))
    ensures "store" in pred.columns && "predicted_sales" in pred.columns ==>
      (r.Ok? <==> CountEq(Column(pred, "store"), n) > 0) && (r.Err? ==> r.error == IndexError)
  {
    if "store" !in pred.columns then Err(KeyError("store"))
    else if "predicted_sales" !in pred.columns then Err(KeyError("predicted_sales"))
    else
      var sales := KeepWhere(pred.rows, IndexOf(pred.columns, "store"), n);
      KeptRowCount(pred, "store", n);
      if sales == [] then Err(IndexError)
      else
        ColumnOfKept(pred, "store", n, "predicted_sales");
        Ok(Sum(Column(Table(pred.columns, sales), "predicted_sales")))
  }

  /** The reported total is the sum of the predicted sales of the store's rows. */
  lemma ForecastTotal(pred: Table, n: int)
    requires WellFormed(pred) && Forecast(pred, n).Ok?
    ensures "store" in pred.columns && "predicted_sales" in pred.columns
    ensures Forecast(pred, n).value == SumWhere(Column(pred, "store"), Column(pred, "predicted_sales"), n)
  {
    ColumnOfKept(pred, "store", n, "predicted_sales");
    SumOfKept(Column(pred, "predicted_sales"), Column(pred, "store"), n);
  }

  const WrongIdText := "Store ID is Wrong. Try another id ;)"
  const NoDataText := "Store ID is wrong. Try another id ;)"
  const BotPage := "<h1> Rossmann Telegram BOT </h1>"

  /** The chat message sent back: one of the two fixed texts, or the sales
      forecast (formatted with `{:,.2f}`). */
  datatype Reply = Text(text: string) | SalesForecast(store: int, total: real)

  datatype HttpMethod = Get | Post

  /** The outside calls a request makes before it replies. */
  datatype Call = ReadDataset | RequestPrediction

  /** The answer to the webhook call, the chat messages sent, and the calls
      made; or the exception that ends the request. */
  datatype Served =
    | Served(body: string, status: int, sent: seq<(int, Reply)>, calls: seq<Call>)
    | Crashed(error: Error, calls: seq<Call>)

  /** `index`. The test data (already merged with the store data) and the
      prediction service are parameters; `predict` gives the predicted frame
      or the exception it raises (a reply that is not JSON, or an empty one). */
  function Index(m: HttpMethod, u: Update, merged: Table, api: Table -> Result<Table>): (r: Served)
    requires WellFormed(merged) && "Store" in merged.columns
    requires forall t :: api(t).Ok? ==> WellFormed(api(t).value)
    ensures m == Get ==> r == Served(BotPage, 200, [], [])
    ensures m == Post && r.Served? ==> r.body == "Ok" && r.status == 200 && |r.sent| == 1
    ensures m == Post && r.Crashed? ==> u.text.None? || r.calls == [ReadDataset, RequestPrediction]
    ensures m == Post && r.Crashed? && u.text.Some? ==>
      && ParseMessage(u).value.1.Id?
      && var n := ParseMessage(u).value.1.n;
      && LoadDataset(merged, n).Payload?
      && var sent := api(LoadDataset(merged, n).table);
      && (sent.Err? ==> r.error == sent.error)
      && (sent.Ok? ==> Forecast(sent.value, n).Err? && r.error == Forecast(sent.value, n).error)
  {
    if m == Get then Served(BotPage, 200, [], [])
    else
      match ParseMessage(u)
      case Err(e) => Crashed(e, [])
      case Ok((chat, sid)) =>
        match sid
        case ErrorSentinel => Served("Ok", 200, [(chat, Text(WrongIdText))], [])
        case Id(n) =>
          match LoadDataset(merged, n)
          case NoData => Served("Ok", 200, [(chat, Text(NoDataText))], [ReadDataset])
          case Payload(data) =>
            match api(data)
            case Err(e) => Crashed(e, [ReadDataset, RequestPrediction])
            case Ok(pred) =>
              match Forecast(pred, n)
              case Err(e) => Crashed(e, [ReadDataset, RequestPrediction])
              case Ok(total) => Served("Ok", 200, [(chat, SalesForecast(n, total))], [ReadDataset, RequestPrediction])
  }

  /** The replies of a text message: a store id that is not a number skips
      the data, a store without rows skips the prediction, a failing
      prediction call ends the request with its exception, and otherwise
      the reply is the store's total. */
  lemma IndexReplies(u: Update, merged: Table, api: Table -> Result<Table>)
    requires WellFormed(merged) && "Store" in merged.columns
    requires forall t :: api(t).Ok? ==> WellFormed(api(t).value)
    requires u.text.Some?
    ensures var r := Index(Post, u, merged, api);
      var sid := ParseMessage(u).value.1;
      && (sid == ErrorSentinel ==> r == Served("Ok", 200, [(u.chatId, Text(WrongIdText))], []))
      && (sid.Id? && CountEq(Column(merged, "Store"), sid.n) == 0 ==> r == Served("Ok", 200, [(u.chatId, Text(NoDataText))], [ReadDataset]))
      && (sid.Id? && CountEq(Column(merged, "Store"), sid.n) > 0 && api(LoadDataset(merged, sid.n).table).Err? ==>
            r == Crashed(api(LoadDataset(merged, sid.n).table).error, [ReadDataset, RequestPrediction]))
      && (sid.Id? && r.Served? && CountEq(Column(merged, "Store"), sid.n) > 0 ==>
            api(LoadDataset(merged, sid.n).table).Ok? &&
            var pred := api(LoadDataset(merged, sid.n).table).value;
            "store" in pred.columns && "predicted_sales" in pred.columns
            && r.sent == [(u.chatId, SalesForecast(sid.n, SumWhere(Column(pred, "store"), Column(pred, "predicted_sales"), sid.n)))])
      && (sid.Id? && CountEq(Column(merged, "Store"), sid.n) > 0 && api(LoadDataset(merged, sid.n).table).Ok? ==>
            var pred := api(LoadDataset(merged, sid.n).table).value;
            && (Forecast(pred, sid.n).Err? ==> r == Crashed(Forecast(pred, sid.n).error, [ReadDataset, RequestPrediction]))
            && (Forecast(pred, sid.n).Ok? ==>
                  r == Served("Ok", 200, [(u.chatId, SalesForecast(sid.n, SumWhere(Column(pred, "store"), Column(pred, "predicted_sales"), sid.n)))],
                              [ReadDataset, RequestPrediction])))
  {
    var sid := ParseMessage(u).value.1;
    if sid.Id? && CountEq(Column(merged, "Store"), sid.n) > 0 && api(LoadDataset(merged, sid.n).table).Ok? {
      var pred := api(LoadDataset(merged, sid.n).table).value;
      if Forecast(pred, sid.n).Ok? {
        ForecastTotal(pred, sid.n);
      }
    }
  }

  /** The two wrong-id replies differ only in the case of one letter. */
  lemma WrongIdTextsDiffer()
    ensures WrongIdText != NoDataText && |WrongIdText| == |NoDataText|
    ensures forall k :: 0 <= k < |WrongIdText| && k != 12 ==> WrongIdText[k] == NoDataText[k]
  {
    assert WrongIdText[12] == 'W' && NoDataText[12] == 'w';
  }
}
