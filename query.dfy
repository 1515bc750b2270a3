/**
 * The text that `getQueryResultForQueryString` assembles from the rows of a
 * ledger query: `[`, one member `{"Key":"<key>", "Record":<value>}` per row in
 * iterator order, the members separated by `,`, then `]`. Keys and values are
 * copied verbatim: nothing is escaped, so the text is not always valid JSON.
 */
module Query {
  import opened Wrappers

  /** One row of a query result: the key and the bytes stored under it. */
  datatype KV = KV(key: string, value: string)

  /**
   * The rows a query iterator yields, and the position (if any) at which its
   * `Next` reports the error `failure` instead of a row.
   */
  datatype QueryIterator = QueryIterator(rows: seq<KV>, failAt: Option<nat>, failure: string)
  {
    /** `Next` called at position `pos` (the iterator's `HasNext` is `pos < |rows|`). */
    function Next(pos: nat): Result<KV, string>
      requires pos < |rows|
    {
      if failAt == Some(pos) then Err(failure) else Ok(rows[pos])
    }

    /** Some call of `Next` made while draining the iterator fails. */
    predicate FailsWithin()
    {
      failAt.Some? && failAt.value < |rows|
    }
  }

  /** One array member; the key is wrapped in quotes, the record is written as is. */
  function Member(kv: KV): (m: string)
    ensures |m| == |kv.key| + |kv.value| + 21
    ensures m[..8] == "{\"Key\":\"" && m[8..8 + |kv.key|] == kv.key
    ensures m[8 + |kv.key|..20 + |kv.key|] == "\", \"Record\":"
    ensures m[20 + |kv.key|..|m| - 1] == kv.value && m[|m| - 1] == '}'
  {
    var m := "{\"Key\":" + "\"" + kv.key + "\"" + ", \"Record\":" + kv.value + "}";
    assert m == "{\"Key\":\"" + kv.key + ("\", \"Record\":" + kv.value + "}");
    m
  }

  /** The members of `rows`, in iterator order. */
  function Members(rows: seq<KV>): (ms: seq<string>)
    ensures |ms| == |rows|
    ensures forall i :: 0 <= i < |rows| ==> ms[i] == Member(rows[i])
  {
    seq(|rows|, i requires 0 <= i < |rows| => Member(rows[i]))
  }

  /** `ms` joined by `,`: a separator between neighbours, none before or after. */
  function Join(ms: seq<string>): string
  {
    if |ms| == 0 then ""
    else if |ms| == 1 then ms[0]
    else ms[0] + "," + Join(ms[1..])
  }

  /** The buffer `getQueryResultForQueryString` returns after draining `rows`. */
  function Render(rows: seq<KV>): string
  {
    "[" + Join(Members(rows)) + "]"
  }

  /** Appending one more element adds a separator only when something was written before. */
  lemma {:induction false} JoinSnoc(ms: seq<string>, m: string)
    ensures Join(ms + [m]) == Join(ms) + (if ms == [] then "" else ",") + m
  {
    if |ms| == 1 {
      assert (ms + [m])[1..] == [m];
    } else if |ms| > 1 {
      assert (ms + [m])[1..] == ms[1..] + [m];
      JoinSnoc(ms[1..], m);
    }
  }

  /** Joining non-empty pieces starts with the first piece's first character and ends with the last piece's last one. */
  lemma {:induction false} JoinEnds(ms: seq<string>)
    requires ms != []
    requires forall i :: 0 <= i < |ms| ==> ms[i] != []
    ensures |Join(ms)| > 0
    ensures Join(ms)[0] == ms[0][0]
    ensures Join(ms)[|Join(ms)| - 1] == ms[|ms| - 1][|ms[|ms| - 1]| - 1]
  {
    if |ms| > 1 {
      var rest := ms[1..];
      assert forall i :: 0 <= i < |rest| ==> rest[i] == ms[i + 1];
      JoinEnds(rest);
      var j, s := Join(rest), Join(ms);
      assert s == ms[0] + "," + j;
      assert s[0] == ms[0][0];
      assert s[|s| - 1] == j[|j| - 1];
      assert rest[|rest| - 1] == ms[|ms| - 1];
    }
  }

  /** The members of a prefix one row longer. */
  lemma MembersSnoc(rows: seq<KV>, i: nat)
    requires i < |rows|
    ensures Members(rows[..i + 1]) == Members(rows[..i]) + [Member(rows[i])]
  {
  }

  /**
   * The buffer after the members of `rows[..pos]` and, unless none was
   * written, a comma, is extended by the next member to the buffer after
   * `rows[..pos + 1]`.
   */
  lemma PrefixSnoc(rows: seq<KV>, pos: nat, buffer: string)
    requires pos < |rows|
    requires buffer == "[" + Join(Members(rows[..pos])) + (if pos > 0 then "," else "")
    ensures buffer + Member(rows[pos]) == "[" + Join(Members(rows[..pos + 1]))
  {
    var ms := Members(rows[..pos]);
    assert |ms| == pos;
    MembersSnoc(rows, pos);
    BracketSnoc(ms, Member(rows[pos]), buffer);
  }

  /** Writing a comma (unless nothing was written) and then `m` after `[` and the joined `ms` gives `[` and the joined `ms + [m]`. */
  lemma BracketSnoc(ms: seq<string>, m: string, buffer: string)
    requires buffer == "[" + Join(ms) + (if ms == [] then "" else ",")
    ensures buffer + m == "[" + Join(ms + [m])
  {
    JoinSnoc(ms, m);
    var sep := if ms == [] then "" else ",";
    calc {
      buffer + m;
      ("[" + Join(ms) + sep) + m;
      "[" + (Join(ms) + sep + m);
      "[" + Join(ms + [m]);
    }
  }

  /** An iterator without rows yields exactly `[]`. */
  lemma RenderEmpty()
    ensures Render([]) == "[]"
  {
  }

  /** Each further row appends a comma (unless it is the first) and its member before the closing `]`. */
  lemma RenderSnoc(rows: seq<KV>, kv: KV)
    ensures Render(rows + [kv])
         == "[" + Join(Members(rows)) + (if rows == [] then "" else ",") + Member(kv) + "]"
  {
    var all, sep := rows + [kv], if rows == [] then "" else ",";
    assert all[..|rows|] == rows && all[..|rows| + 1] == all && all[|rows|] == kv;
    var buffer := "[" + Join(Members(rows)) + sep;
    PrefixSnoc(all, |rows|, buffer);
    assert Render(all) == (buffer + Member(kv)) + "]";
  }

  /** No comma follows `[` and none precedes `]`: the first character inside is `{` and the last is `}`. */
  lemma RenderHasNoStrayComma(rows: seq<KV>)
    requires rows != []
    ensures |Render(rows)| >= 4
    ensures Render(rows)[1] == '{' && Render(rows)[|Render(rows)| - 2] == '}'
  {
    var ms := Members(rows);
    JoinEnds(ms);
    var r := Render(rows);
    assert r == "[" + Join(ms) + "]";
    assert r[1] == Join(ms)[0];
    assert r[|r| - 2] == Join(ms)[|Join(ms)| - 1];
  }
}
