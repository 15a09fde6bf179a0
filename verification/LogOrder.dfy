// The order of log lines across files: time, then file, then offset.
module LogOrder {
  import opened Strings

  // Where a line is: the cursor a client passes back.
  datatype Cursor = Cursor(at: int, file: string, start: nat)

  predicate Less(a: Cursor, b: Cursor) {
    a.at < b.at || (a.at == b.at && (StringLess(a.file, b.file) || (a.file == b.file && a.start < b.start)))
  }

  lemma LessTotal(a: Cursor, b: Cursor)
    ensures a == b || Less(a, b) || Less(b, a)
    ensures !(Less(a, b) && Less(b, a))
    ensures a == b ==> !Less(a, b)
  {
    StringTotal(a.file, b.file);
  }

  lemma LessTransitive(a: Cursor, b: Cursor, c: Cursor)
    requires Less(a, b) && Less(b, c)
    ensures Less(a, c)
  {
    if StringLess(a.file, b.file) && StringLess(b.file, c.file) {
      StringTransitive(a.file, b.file, c.file);
    }
  }

  // The order a page is walked in.
  predicate Ahead(forwards: bool, a: Cursor, b: Cursor) {
    if forwards then Less(a, b) else Less(b, a)
  }

  lemma AheadTransitive(forwards: bool, a: Cursor, b: Cursor, c: Cursor)
    requires Ahead(forwards, a, b) && Ahead(forwards, b, c)
    ensures Ahead(forwards, a, c)
  {
    if forwards {
      LessTransitive(a, b, c);
    } else {
      LessTransitive(c, b, a);
    }
  }
}
