/** Content-derived identifiers (lineagekit/lineage_tracker.py:82-90).
    An id is the first 16 hex characters of the SHA-1 of the parts joined
    with `|`; a parameter hash is the first 12 of the SHA-1 of a rendering
    of the transform's declared configuration. SHA-1 and `repr` are not
    modelled: they are passed in as functions. */
module Identity {
  import opened Text

  /** Hex SHA-1 of a key's bytes, left uninterpreted. */
  type Digest = string -> string

  const Separator: char := '|'

  /** `x or ""`: a missing part and an empty part both become "". */
  function Normalize(part: Option<string>): (s: string)
    ensures part.None? ==> s == ""
    ensures part.Some? ==> s == part.value
  {
    match part
    case None => ""
    case Some(text) => text
  }

  function NormalizeAll(parts: seq<Option<string>>): (r: seq<string>)
    ensures |r| == |parts|
    ensures forall i :: 0 <= i < |parts| ==> r[i] == Normalize(parts[i])
  {
    seq(|parts|, i requires 0 <= i < |parts| => Normalize(parts[i]))
  }

  /** The digested key: `"|".join([x or "" for x in parts])`. */
  function Key(parts: seq<Option<string>>): string {
    Join(Separator, NormalizeAll(parts))
  }

  /** Python's `s[:n]`. */
  function Prefix(s: string, n: nat): (r: string)
    ensures |r| == if |s| <= n then |s| else n
    ensures r <= s
  {
    if |s| <= n then s else s[..n]
  }

  /** `_get_id(*parts)`. */
  function GetId(digest: Digest, parts: seq<Option<string>>): (id: string)
    ensures |id| == if |digest(Key(parts))| <= 16 then |digest(Key(parts))| else 16
    ensures id <= digest(Key(parts))
  {
    Prefix(digest(Key(parts)), 16)
  }

  /** The key of the column `col` of dataset `ds`. */
  function ColumnKey(ds: string, col: string): string {
    Key([Some(ds), Some(col)])
  }

  /** `_col_id(ds_id, col)`: depends on the dataset id and the column name
      only, never on a run id or a clock. */
  function ColId(digest: Digest, ds: string, col: string): (id: string)
    ensures |id| <= 16
    ensures id == Prefix(digest(ds + [Separator] + col), 16)
  {
    ColumnKeyIsPipeJoin(ds, col);
    GetId(digest, [Some(ds), Some(col)])
  }

  lemma ColumnKeyIsPipeJoin(ds: string, col: string)
    ensures ColumnKey(ds, col) == ds + [Separator] + col
  {
    var n := NormalizeAll([Some(ds), Some(col)]);
    assert n == [ds, col];
    assert n[1..] == [col];
  }

  /** `_params_hash(d)`: 12 hex characters of the digest of the rendered
      configuration; `render` stands for `repr(sorted(d.items()))`. */
  function ParamsHash<C>(digest: Digest, render: C -> string, config: C): (h: string)
    ensures |h| == if |digest(render(config))| <= 12 then |digest(render(config))| else 12
    ensures h <= digest(render(config))
  {
    Prefix(digest(render(config)), 12)
  }

  /** Ids are computed from the joined key alone: part lists that join to
      the same key get the same id. */
  lemma SameKeySameId(digest: Digest, p: seq<Option<string>>, q: seq<Option<string>>)
    requires Key(p) == Key(q)
    ensures GetId(digest, p) == GetId(digest, q)
  {
  }

  /** A missing part and an empty part give the same id. */
  lemma MissingIsEmpty(digest: Digest, parts: seq<Option<string>>, i: nat)
    requires i < |parts|
    ensures GetId(digest, parts[i := None]) == GetId(digest, parts[i := Some("")])
  {
    assert NormalizeAll(parts[i := None]) == NormalizeAll(parts[i := Some("")]);
  }

  /** The joined key is unambiguous when no part holds the separator:
      two non-empty part lists with the same key have the same parts, so a
      digest collision is the only way for different parts to share an id. */
  lemma KeyUnambiguous(p: seq<Option<string>>, q: seq<Option<string>>)
    requires |p| > 0 && |q| > 0
    requires forall i :: 0 <= i < |p| ==> Separator !in Chars(Normalize(p[i]))
    requires forall i :: 0 <= i < |q| ==> Separator !in Chars(Normalize(q[i]))
    requires Key(p) == Key(q)
    ensures NormalizeAll(p) == NormalizeAll(q)
  {
    JoinInjective(Separator, NormalizeAll(p), NormalizeAll(q));
  }

  /** Column keys in particular: with separator-free names the key
      determines the dataset id and the column name. */
  lemma ColumnKeyUnambiguous(ds1: string, col1: string, ds2: string, col2: string)
    requires Separator !in Chars(ds1) && Separator !in Chars(col1)
    requires Separator !in Chars(ds2) && Separator !in Chars(col2)
    requires ColumnKey(ds1, col1) == ColumnKey(ds2, col2)
    ensures ds1 == ds2 && col1 == col2
  {
    KeyUnambiguous([Some(ds1), Some(col1)], [Some(ds2), Some(col2)]);
    assert NormalizeAll([Some(ds1), Some(col1)]) == [ds1, col1];
    assert NormalizeAll([Some(ds2), Some(col2)]) == [ds2, col2];
  }
}
