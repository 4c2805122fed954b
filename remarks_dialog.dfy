/** `src/components/edit-invoice-remarks-dialog.tsx`: the invoice remarks
    are edited as one text, a remark per line, and cleaned when saved. */
module RemarksDialog {
  import opened Seqs
  import opened Text

  /** The text the dialog opens with: the remarks, one per line. */
  function InitialText(remarks: seq<string>): string {
    Join(remarks, '\n')
  }

  /** `.map((l) => l.trim())`. */
  function Trimmed(lines: seq<string>): (r: seq<string>)
    ensures |r| == |lines| && forall i :: 0 <= i < |lines| ==> r[i] == Trim(lines[i])
  {
    seq(|lines|, i requires 0 <= i < |lines| => Trim(lines[i]))
  }

  predicate NonEmptyLine(l: string) { |l| > 0 }

  /** `handleSave`: the text split at line breaks, each line trimmed, and
      the empty lines dropped. */
  function CleanLines(text: string): seq<string> {
    Filter(Trimmed(Split(text, '\n')), NonEmptyLine)
  }

  /** A remark as saving leaves it. */
  predicate CleanRemark(l: string) {
    l != [] && Trim(l) == l && '\n' !in l
  }

  lemma TrimIdempotent(s: string)
    ensures Trim(Trim(s)) == Trim(s)
    ensures forall c :: c in Trim(s) ==> c in s
  {
    var i, j := TrimIsSlice(s);
    var r := Trim(s);
    if r != [] {
      assert TrimStart(r) == r;
      assert TrimEnd(r) == r;
    }
    forall c | c in r ensures c in s {
      var k :| 0 <= k < |r| && r[k] == c;
      assert s[i + k] == c;
    }
  }

  /** Every saved remark is non-empty, trimmed and a single line. */
  lemma SavedRemarksClean(text: string)
    ensures forall l :: l in CleanLines(text) ==> CleanRemark(l)
  {
    var parts := Split(text, '\n');
    forall l | l in CleanLines(text) ensures CleanRemark(l) {
      var k :| 0 <= k < |parts| && Trimmed(parts)[k] == l;
      TrimIdempotent(parts[k]);
    }
  }

  lemma TrimmedAppend(a: seq<string>, b: seq<string>)
    ensures Trimmed(a + b) == Trimmed(a) + Trimmed(b)
  {
  }

  /** Lines are saved in the order they are written: the remarks of two
      texts joined by a line break are the remarks of the first followed
      by those of the second. */
  lemma CleanLinesAppend(a: string, b: string)
    ensures CleanLines(a + "\n" + b) == CleanLines(a) + CleanLines(b)
  {
    SplitAround(a, b, '\n');
    assert a + "\n" + b == a + ['\n'] + b;
    TrimmedAppend(Split(a, '\n'), Split(b, '\n'));
    FilterAppend(Trimmed(Split(a, '\n')), Trimmed(Split(b, '\n')), NonEmptyLine);
  }

  /** Opening the dialog on clean remarks and saving without an edit gives
      the same remarks back. */
  lemma SaveInitialText(remarks: seq<string>)
    requires forall i :: 0 <= i < |remarks| ==> CleanRemark(remarks[i])
    ensures CleanLines(InitialText(remarks)) == remarks
  {
    if remarks == [] {
      assert Split("", '\n') == [""];
      assert Trimmed([""]) == [""];
    } else {
      SplitJoin(remarks, '\n');
      assert Trimmed(remarks) == remarks;
      FilterAll(remarks, NonEmptyLine);
    }
  }

  /** Saving twice changes nothing more than saving once. */
  lemma SaveIdempotent(text: string)
    ensures CleanLines(InitialText(CleanLines(text))) == CleanLines(text)
  {
    SavedRemarksClean(text);
    SaveInitialText(CleanLines(text));
  }
}
