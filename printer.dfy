/**
 * printer.go: the linear attribute printer, which renders `g1.g2.key=value ` into
 * the record's buffer. The traversal in handler.go calls it as Print(groups, attr)
 * (PrintAt below); printer.go's own Enter/Exit/Print(attr) interface, which keeps the
 * group path inside the printer, is kept on the same class and shares the rendering.
 */
module ClogPrinter {
  import opened Slog

  /** The bytes.Buffer a record is formatted into. */
  class Buffer {
    var data: string

    constructor ()
      ensures data == ""
    {
      data := "";
    }

    method Write(s: string)
      modifies this
      ensures data == old(data) + s
    {
      data := data + s;
    }
  }

  /** strings.Join. */
  function Join(parts: seq<string>, sep: string): string
  {
    if parts == [] then ""
    else if |parts| == 1 then parts[0]
    else parts[0] + sep + Join(parts[1..], sep)
  }

  /** Joining one more part appends the separator and that part. */
  lemma {:induction false} JoinSnoc(parts: seq<string>, last: string, sep: string)
    requires parts != []
    ensures Join(parts + [last], sep) == Join(parts, sep) + sep + last
  {
    if |parts| > 1 {
      assert (parts + [last])[1..] == parts[1..] + [last];
      JoinSnoc(parts[1..], last, sep);
    }
  }

  /** The key as the linear printer writes it: the group path joined by "." and then "." and the key. */
  function PrintedKey(groups: seq<string>, key: string): string
  {
    (if |groups| > 0 then Join(groups, ".") + "." else "") + key
  }

  /** What one Print call writes: key, "=", the value's text, one space. */
  function Line(groups: seq<string>, attr: Attr): string
  {
    PrintedKey(groups, attr.key) + "=" + Show(attr.value) + " "
  }

  /**
   * The printed key is the whole path with the key as its last element, joined by ".";
   * an empty path prints the bare key.
   */
  lemma {:induction false} PrintedKeyIsDottedPath(groups: seq<string>, key: string)
    ensures PrintedKey(groups, key) == Join(groups + [key], ".")
    ensures groups == [] ==> PrintedKey(groups, key) == key
  {
    if groups != [] {
      JoinSnoc(groups, key, ".");
    }
  }

  /** A key printed one group deeper extends the group's own printed key by "." and the key. */
  lemma {:induction false} PrintedKeyNested(groups: seq<string>, group: string, key: string)
    ensures PrintedKey(groups + [group], key) == PrintedKey(groups, group) + "." + key
  {
    if groups != [] {
      JoinSnoc(groups, group, ".");
    }
  }

  /** The linear printer: the buffer it writes to and its own group path. */
  class LinearPrinter {
    const w: Buffer
    var groups: seq<string>

    /** LinearPrinter(w). */
    constructor (w: Buffer)
      ensures this.w == w && groups == []
    {
      this.w := w;
      groups := [];
    }

    /** Enter appends the group to the end of the path. */
    method Enter(group: string)
      modifies this
      ensures groups == old(groups) + [group]
    {
      groups := groups + [group];
    }

    /** Exit drops the last element of the path (the argument is not consulted); an empty path makes Go panic. */
    method Exit(group: string)
      requires groups != []
      modifies this
      ensures groups == old(groups)[..|old(groups)| - 1]
    {
      groups := groups[..|groups| - 1];
    }

    /** Print as handler.go calls it: the path is given by the caller; the printer's own path is left alone. */
    method PrintAt(path: seq<string>, attr: Attr)
      modifies w
      ensures w.data == old(w.data) + Line(path, attr)
    {
      var keyPrefix := "";
      if |path| > 0 {
        keyPrefix := Join(path, ".") + ".";
      }
      var key := keyPrefix + attr.key;
      w.Write(key);
      w.Write("=");
      w.Write(Show(attr.value));
      w.Write(" ");
    }

    /** Print as printer.go declares it: under the printer's own path, which it does not change. */
    method Print(attr: Attr)
      modifies w
      ensures w.data == old(w.data) + Line(groups, attr)
    {
      PrintAt(groups, attr);
    }
  }
}
