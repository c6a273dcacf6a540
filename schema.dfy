/** The column-header normaliser: drop the fixed removal list (labels that are
    not present are ignored), apply the fixed rename map, and project onto the
    six canonical columns, failing when one of them is missing. */
module Schema {
  import opened Results

  /** Columns dropped with `errors="ignore"`. */
  const Removed: seq<string> := [
    "Impuesto",
    "Descripción Impuesto",
    "Régimen",
    "Número Certificado",
    "Descripción Régimen",
    "Descripción Operación",
    "Fecha Registración DJ Ag.Ret.",
    "Fecha Comprobante"
  ]

  /** Source label to canonical label. */
  const Renames: map<string, string> := map[
    "Número Comprobante" := "Nro Comprobante",
    "Importe Ret./Perc." := "Importe",
    "CUIT Agente Ret./Perc." := "CUIT",
    "Fecha Ret./Perc." := "Fecha",
    "Denominación o Razón Social" := "Razón Social",
    "Descripción Comprobante" := "Comprobante"
  ]

  /** The output column order. */
  const Canonical: seq<string> := [
    "CUIT", "Razón Social", "Fecha", "Nro Comprobante", "Comprobante", "Importe"
  ]

  /** For each canonical column, the source label that the rename map turns
      into it (same positions as Canonical). */
  const Sources: seq<string> := [
    "CUIT Agente Ret./Perc.", "Denominación o Razón Social", "Fecha Ret./Perc.",
    "Número Comprobante", "Descripción Comprobante", "Importe Ret./Perc."
  ]

  /** df.drop(columns=Removed, errors="ignore"): every column whose label is in
      the list goes, the rest keep their order (see `DropAppend`). */
  function Drop(headers: seq<string>): (r: seq<string>)
    ensures forall c :: c in r <==> c in headers && c !in Removed
    ensures |r| <= |headers|
  {
    if headers == [] then []
    else (if headers[0] in Removed then [] else [headers[0]]) + Drop(headers[1..])
  }

  /** Dropping works label by label: the part kept from a header joined to
      another is the part kept from the first followed by the part kept from
      the second, so the surviving labels stay in their input order. */
  lemma {:induction false} DropAppend(a: seq<string>, b: seq<string>)
    ensures Drop(a + b) == Drop(a) + Drop(b)
    decreases |a|
  {
    if a == [] {
      assert a + b == b;
    } else {
      assert (a + b)[0] == a[0] && (a + b)[1..] == a[1..] + b;
      DropAppend(a[1..], b);
    }
  }

  function RenameLabel(c: string): string {
    if c in Renames then Renames[c] else c
  }

  /** df.rename(columns=Renames): labels in the map are replaced, the others kept. */
  function Rename(headers: seq<string>): (r: seq<string>)
    ensures |r| == |headers|
    ensures forall i :: 0 <= i < |headers| && headers[i] in Renames ==> r[i] == Renames[headers[i]]
    ensures forall i :: 0 <= i < |headers| && headers[i] !in Renames ==> r[i] == headers[i]
  {
    seq(|headers|, i requires 0 <= i < |headers| => RenameLabel(headers[i]))
  }

  /** The column labels after the drop and the rename. */
  function Prepare(headers: seq<string>): seq<string> {
    Rename(Drop(headers))
  }

  /** `c` is the first label of `required` that `columns` lacks: the label a
      sequence of `df[label]` reads in the order of `required` fails on. */
  predicate FirstMissing(required: seq<string>, columns: seq<string>, c: string) {
    exists j :: 0 <= j < |required| && required[j] == c && c !in columns
                && forall k :: 0 <= k < j ==> required[k] in columns
  }

  /** The labels of `required` that `columns` lacks, in the order of `required`. */
  function MissingFrom(required: seq<string>, columns: seq<string>): (m: seq<string>)
    ensures forall c :: c in m <==> c in required && c !in columns
    ensures m == [] <==> forall c :: c in required ==> c in columns
    ensures m != [] ==> FirstMissing(required, columns, m[0])
    ensures |m| <= |required|
  {
    if required == [] then []
    else if required[0] in columns then
      var rest := MissingFrom(required[1..], columns);
      assert rest != [] ==> FirstMissing(required, columns, rest[0]) by {
        if rest != [] {
          var j :| 0 <= j < |required[1..]| && required[1..][j] == rest[0] && rest[0] !in columns
                   && forall k :: 0 <= k < j ==> required[1..][k] in columns;
          assert required[j + 1] == rest[0];
          assert forall k :: 1 <= k < j + 1 ==> required[k] == required[1..][k - 1];
        }
      }
      rest
    else [required[0]] + MissingFrom(required[1..], columns)
  }

  /** df[Canonical]: the canonical columns in order, or a KeyError naming the
      missing ones. */
  function Project(columns: seq<string>): (r: Result<seq<string>, seq<string>>)
    ensures r.Ok? <==> forall c :: c in Canonical ==> c in columns
    ensures r.Ok? ==> r.value == Canonical
    ensures r.Err? ==> r.error != [] && forall c :: c in r.error <==> c in Canonical && c !in columns
  {
    var missing := MissingFrom(Canonical, columns);
    if missing == [] then Ok(Canonical) else Err(missing)
  }

  /** Drop, rename and project. */
  function Normalise(headers: seq<string>): Result<seq<string>, seq<string>> {
    Project(Prepare(headers))
  }

  /** The rename map sends the source labels, and only those, to the
      canonical labels at the same positions. */
  lemma RenamesBySources()
    ensures forall x :: x in Renames <==> x in Sources
    ensures forall k :: 0 <= k < |Sources| ==> Sources[k] in Renames && Renames[Sources[k]] == Canonical[k]
  {
  }

  lemma CanonicalLabels()
    ensures forall i, j :: 0 <= i < j < |Canonical| ==> Canonical[i] != Canonical[j]
    ensures forall i :: 0 <= i < |Canonical| ==> Canonical[i] !in Renames && Canonical[i] !in Removed && Sources[i] !in Removed
  {
  }

  /** The labels the rename turns into Canonical[i]: itself and Sources[i]. */
  lemma RenameLabelTo(i: nat, x: string)
    requires i < |Canonical|
    ensures RenameLabel(x) == Canonical[i] <==> x == Canonical[i] || x == Sources[i]
  {
    RenamesBySources();
    CanonicalLabels();
    if x in Renames {
      var k :| 0 <= k < |Sources| && Sources[k] == x;
      assert RenameLabel(x) == Canonical[k];
    }
  }

  /** After drop and rename no removed label and no source label of the rename
      map is left, and a canonical column is present exactly when the input had
      it under its own name or under the source label that renames to it. */
  lemma PreparedColumns(headers: seq<string>)
    ensures forall c :: c in Prepare(headers) ==> c !in Removed && c !in Renames
    ensures forall i :: 0 <= i < |Canonical| ==>
              (Canonical[i] in Prepare(headers) <==> Canonical[i] in headers || Sources[i] in headers)
  {
    var dropped := Drop(headers);
    var renamed := Rename(dropped);
    RenamesBySources();
    CanonicalLabels();
    forall c | c in renamed
      ensures c !in Removed && c !in Renames
    {
      var j :| 0 <= j < |renamed| && renamed[j] == c;
      assert dropped[j] !in Removed;
      if dropped[j] in Renames {
        var k :| 0 <= k < |Sources| && Sources[k] == dropped[j];
        assert c == Canonical[k];
      }
    }
    forall i | 0 <= i < |Canonical|
      ensures Canonical[i] in renamed <==> Canonical[i] in headers || Sources[i] in headers
    {
      var c, s := Canonical[i], Sources[i];
      if c in renamed {
        var j :| 0 <= j < |renamed| && renamed[j] == c;
        RenameLabelTo(i, dropped[j]);
      }
      if c in headers {
        var j :| 0 <= j < |dropped| && dropped[j] == c;
        RenameLabelTo(i, c);
        assert renamed[j] == c;
      } else if s in headers {
        var j :| 0 <= j < |dropped| && dropped[j] == s;
        RenameLabelTo(i, s);
        assert renamed[j] == c;
      }
    }
  }

  /** The normaliser succeeds exactly when every canonical column can be found
      under its own name or its source label, and then yields the canonical
      columns in order; otherwise it names every missing one. */
  lemma NormaliseSucceeds(headers: seq<string>)
    ensures Normalise(headers).Ok? <==>
              forall i :: 0 <= i < |Canonical| ==> Canonical[i] in headers || Sources[i] in headers
    ensures Normalise(headers).Ok? ==> Normalise(headers).value == Canonical
  {
    PreparedColumns(headers);
    var ok := forall i :: 0 <= i < |Canonical| ==> Canonical[i] in headers || Sources[i] in headers;
    if ok {
      forall c | c in Canonical ensures c in Prepare(headers) {
        var i :| 0 <= i < |Canonical| && Canonical[i] == c;
      }
    }
  }

  /** Removal labels that are absent do no harm: a header list without any of
      them passes the drop unchanged. */
  lemma DropIgnoresAbsent(headers: seq<string>)
    requires forall c :: c in headers ==> c !in Removed
    ensures Drop(headers) == headers
  {
    if headers != [] {
      DropIgnoresAbsent(headers[1..]);
      assert headers == [headers[0]] + headers[1..];
    }
  }

  /** A full export header (the dropped columns and the six source columns)
      normalises to the canonical columns. */
  lemma FullExportNormalises()
    ensures Normalise(Removed + Sources) == Ok(Canonical)
  {
    NormaliseSucceeds(Removed + Sources);
    forall i | 0 <= i < |Canonical|
      ensures Sources[i] in Removed + Sources
    {
      assert (Removed + Sources)[|Removed| + i] == Sources[i];
    }
  }
}
