/** The rules of `DocumentAnalyzer` that run after text recognition: the dispatch
    of `process_document` on a file's extension, and the way `extract_medical_info`
    turns what its regular expressions captured into the lists of a medical record.
    Text recognition and the regular-expression engine are outside the model: the
    recogniser is a function parameter, and each pattern's capture group is an input. */
module Document {
  import opened Text

  // ---------------------------------------------------------------------------
  // process_document
  // ---------------------------------------------------------------------------

  /** `s.rfind(c)`: the index of the last `c` in `s`, or -1. */
  function LastIndex(s: string, c: char): (i: int)
    ensures -1 <= i < |s|
    ensures i >= 0 ==> s[i] == c
    ensures forall k :: i < k < |s| ==> s[k] != c
  {
    if |s| == 0 then -1
    else if s[|s| - 1] == c then |s| - 1
    else LastIndex(s[..|s| - 1], c)
  }

  /** `os.path.splitext(path)[1]` for a POSIX path: everything from the last dot of
      the last path component, provided the component has a character other than a
      dot before that dot; otherwise the empty string. */
  function Extension(path: string): (ext: string)
    ensures ext == [] || (ext[0] == '.' && |ext| <= |path| && ext == path[|path| - |ext|..])
    ensures forall k :: 1 <= k < |ext| ==> ext[k] != '.' && ext[k] != '/'
  {
    var sep := LastIndex(path, '/');
    var dot := LastIndex(path, '.');
    if dot > sep && exists k :: sep < k < dot && path[k] != '.' then path[dot..] else ""
  }

  /** A file named `stem.ext` in any directory has extension `.ext`, as long as the
      stem is not made of dots only. */
  lemma ExtensionOfName(dir: string, stem: string, ext: string)
    requires dir == [] || dir[|dir| - 1] == '/'
    requires forall i :: 0 <= i < |stem| ==> stem[i] != '/'
    requires forall i :: 0 <= i < |ext| ==> ext[i] != '/' && ext[i] != '.'
    requires exists i :: 0 <= i < |stem| && stem[i] != '.'
    ensures Extension(dir + stem + "." + ext) == "." + ext
  {
    var path := dir + stem + "." + ext;
    var dot := |dir| + |stem|;
    assert path[dot] == '.';
    assert forall k :: dot < k < |path| ==> path[k] == ext[k - dot - 1];
    var sep := LastIndex(path, '/');
    assert forall k :: |dir| <= k < |path| ==> path[k] != '/' by {
      forall k | |dir| <= k < |path|
        ensures path[k] != '/'
      {
        if k < dot {
          assert path[k] == stem[k - |dir|];
        }
      }
    }
    if dir != [] {
      assert path[|dir| - 1] == '/';
    }
    assert sep == |dir| - 1;
    assert LastIndex(path, '.') == dot;
    var i :| 0 <= i < |stem| && stem[i] != '.';
    assert path[|dir| + i] == stem[i];
    assert path[dot..] == "." + ext;
  }

  /** A name whose only dot is its first character has no extension. */
  lemma DotFileHasNoExtension(dir: string, ext: string)
    requires dir == [] || dir[|dir| - 1] == '/'
    requires forall i :: 0 <= i < |ext| ==> ext[i] != '/' && ext[i] != '.'
    ensures Extension(dir + "." + ext) == ""
  {
    var path := dir + "." + ext;
    var dot := |dir|;
    assert path[dot] == '.';
    assert forall k :: dot < k < |path| ==> path[k] == ext[k - dot - 1];
    assert forall k :: |dir| <= k < |path| ==> path[k] != '/';
    if dir != [] {
      assert path[|dir| - 1] == '/';
    }
    assert LastIndex(path, '/') == |dir| - 1;
    assert LastIndex(path, '.') == dot;
  }

  datatype Handler = PdfHandler | ImageHandler | NoHandler

  const ImageExtensions: seq<string> := [".jpg", ".jpeg", ".png", ".tiff", ".bmp"]

  const UnsupportedFormat := "Unsupported file format"

  /** The handler `process_document` picks: the lower-cased extension decides. */
  function HandlerFor(path: string): (h: Handler)
    ensures h != NoHandler ==> |Extension(path)| >= 4
  {
    var ext := Lower(Extension(path));
    if ext == ".pdf" then PdfHandler
    else if ext in ImageExtensions then ImageHandler
    else NoHandler
  }

  /** `process_document`: the text the PDF or image recogniser extracts, or the
      unsupported-format message. */
  function ProcessDocument(path: string, processPdf: string -> string, processImage: string -> string): (text: string)
    ensures Extension(path) == [] ==> text == UnsupportedFormat
  {
    match HandlerFor(path)
    case PdfHandler => processPdf(path)
    case ImageHandler => processImage(path)
    case NoHandler => UnsupportedFormat
  }

  /** Dispatch on a file name: the extension, in any letter case, picks the
      recogniser; every other extension is refused. */
  lemma DispatchByName(dir: string, stem: string, ext: string, processPdf: string -> string, processImage: string -> string)
    requires dir == [] || dir[|dir| - 1] == '/'
    requires forall i :: 0 <= i < |stem| ==> stem[i] != '/'
    requires forall i :: 0 <= i < |ext| ==> ext[i] != '/' && ext[i] != '.'
    requires exists i :: 0 <= i < |stem| && stem[i] != '.'
    ensures var path := dir + stem + "." + ext;
      && (Lower("." + ext) == ".pdf" ==> ProcessDocument(path, processPdf, processImage) == processPdf(path))
      && (Lower("." + ext) in ImageExtensions ==> ProcessDocument(path, processPdf, processImage) == processImage(path))
      && (Lower("." + ext) != ".pdf" && Lower("." + ext) !in ImageExtensions ==>
            ProcessDocument(path, processPdf, processImage) == UnsupportedFormat)
  {
    ExtensionOfName(dir, stem, ext);
  }

  /** An upper-case `.PDF` goes to the PDF recogniser. */
  lemma UpperCasePdf(processPdf: string -> string, processImage: string -> string)
    ensures ProcessDocument("scans/report.PDF", processPdf, processImage) == processPdf("scans/report.PDF")
  {
    assert "scans/report.PDF" == "scans/" + "report" + "." + "PDF";
    assert "report"[0] != '.';
    ExtensionOfName("scans/", "report", "PDF");
    LowerPdf();
  }

  lemma LowerPdf()
    ensures Lower("." + "PDF") == ".pdf"
  {
    assert "." + "PDF" == ".PDF";
    assert Lower(".PDF") == ".pdf";
  }

  /** A file named `.pdf` has no extension at all and is refused. */
  lemma DotFileRefused(processPdf: string -> string, processImage: string -> string)
    ensures ProcessDocument("scans/.pdf", processPdf, processImage) == UnsupportedFormat
  {
    assert "scans/.pdf" == "scans/" + "." + "pdf";
    DotFileHasNoExtension("scans/", "pdf");
  }

  // ---------------------------------------------------------------------------
  // Allergy, medication and diagnosis lists
  // ---------------------------------------------------------------------------

  const ListSeparators: set<char> := {',', ';'}

  /** A piece the list rules drop: empty, or "n/a", "none" or "/" in any case. */
  predicate Placeholder(item: string)
  {
    item == "" || Lower(item) == "n/a" || Lower(item) == "none" || Lower(item) == "/"
  }

  /** A string with no whitespace at either end, as `strip` leaves it. */
  predicate Trimmed(s: string)
  {
    s == [] || (!IsSpace(s[0]) && !IsSpace(s[|s| - 1]))
  }

  /** An item that can stand in a list as it is: not a placeholder, no surrounding
      whitespace, no separator. */
  predicate Clean(item: string)
  {
    !Placeholder(item) && Trimmed(item) && Avoids(item, ListSeparators)
  }

  /** Every piece stripped. */
  function StripAll(pieces: seq<string>): (r: seq<string>)
    ensures |r| == |pieces|
    ensures forall i :: 0 <= i < |pieces| ==> r[i] == Strip(pieces[i])
  {
    seq(|pieces|, i requires 0 <= i < |pieces| => Strip(pieces[i]))
  }

  /** Stripping leaves no whitespace at the ends and adds no character a piece
      did not have. */
  lemma StripAvoids(piece: string, seps: set<char>)
    requires Avoids(piece, seps)
    ensures Trimmed(Strip(piece)) && Avoids(Strip(piece), seps)
  {
    var a := StripInfix(piece);
    var item := Strip(piece);
    forall i | 0 <= i < |item|
      ensures item[i] !in seps
    {
      assert item[i] == piece[a + i];
    }
  }

  /** Stripped pieces have no whitespace at their ends and no separator. */
  lemma StripAllTrimmed(pieces: seq<string>, seps: set<char>)
    requires forall k :: 0 <= k < |pieces| ==> Avoids(pieces[k], seps)
    ensures forall k :: 0 <= k < |pieces| ==> Trimmed(StripAll(pieces)[k]) && Avoids(StripAll(pieces)[k], seps)
  {
    var r := StripAll(pieces);
    forall k | 0 <= k < |pieces|
      ensures Trimmed(r[k]) && Avoids(r[k], seps)
    {
      StripAvoids(pieces[k], seps);
    }
  }

  /** The items that are not placeholders, in order. */
  function KeptItems(items: seq<string>): (kept: seq<string>)
    ensures |kept| <= |items|
    ensures forall i :: 0 <= i < |kept| ==> !Placeholder(kept[i]) && kept[i] in items
    ensures forall k :: 0 <= k < |items| && !Placeholder(items[k]) ==> items[k] in kept
  {
    if |items| == 0 then []
    else
      var last := |items| - 1;
      var rest := KeptItems(items[..last]);
      assert forall k :: 0 <= k < last ==> items[..last][k] == items[k];
      assert forall x :: x in items[..last] ==> x in items;
      if Placeholder(items[last]) then rest else rest + [items[last]]
  }

  /** Items none of which is a placeholder are all kept. */
  lemma {:induction false} KeptAll(items: seq<string>)
    requires forall i :: 0 <= i < |items| ==> !Placeholder(items[i])
    ensures KeptItems(items) == items
  {
    if |items| > 0 {
      KeptAll(items[..|items| - 1]);
      assert items[..|items| - 1] + [items[|items| - 1]] == items;
    }
  }

  /** The list one capture yields: the stripped capture split on `,` and `;`, each
      piece stripped, placeholders dropped; a whole capture of "n/a" or "none"
      yields nothing. */
  function ListItems(capture: string): seq<string>
  {
    var whole := Strip(capture);
    if Lower(whole) == "n/a" || Lower(whole) == "none" then []
    else KeptItems(StripAll(Split(whole, ListSeparators)))
  }

  /** The test on the whole capture changes nothing: a capture of "n/a" or "none"
      is a single placeholder piece, which the per-piece test drops anyway. */
  lemma WholeCaptureTestRedundant(capture: string)
    ensures ListItems(capture) == KeptItems(StripAll(Split(Strip(capture), ListSeparators)))
  {
    var whole := Strip(capture);
    if Lower(whole) == "n/a" || Lower(whole) == "none" {
      PlaceholderCaptureDropped(whole);
    }
  }

  /** A stripped capture reading "n/a" or "none" in any case is one piece, a
      placeholder, so nothing of it is kept. */
  lemma PlaceholderCaptureDropped(whole: string)
    requires Trimmed(whole)
    requires Lower(whole) == "n/a" || Lower(whole) == "none"
    ensures KeptItems(StripAll(Split(whole, ListSeparators))) == []
  {
    PlaceholderAvoids(whole);
    SplitWithoutSeparator(whole, ListSeparators);
    StripUntouched(whole);
    assert StripAll([whole]) == [whole];
    assert Placeholder(whole);
    assert [whole][..0] == [];
  }

  /** "n/a" and "none" hold no list separator, in any case. */
  lemma PlaceholderAvoids(whole: string)
    requires Lower(whole) == "n/a" || Lower(whole) == "none"
    ensures Avoids(whole, ListSeparators)
  {
    forall i | 0 <= i < |whole|
      ensures whole[i] !in ListSeparators
    {
      assert Lower(whole)[i] == LowerChar(whole[i]);
    }
  }

  /** The listed items are exactly the stripped pieces of the capture that are not
      placeholders. */
  lemma ListItemsContents(capture: string)
    ensures var pieces := StripAll(Split(Strip(capture), ListSeparators));
      && (forall i :: 0 <= i < |ListItems(capture)| ==> ListItems(capture)[i] in pieces)
      && (forall k :: 0 <= k < |pieces| && !Placeholder(pieces[k]) ==> pieces[k] in ListItems(capture))
  {
    WholeCaptureTestRedundant(capture);
  }

  /** Every listed item is clean. */
  lemma ListItemsClean(capture: string)
    ensures forall i :: 0 <= i < |ListItems(capture)| ==> Clean(ListItems(capture)[i])
  {
    var split := Split(Strip(capture), ListSeparators);
    WholeCaptureTestRedundant(capture);
    StripAllTrimmed(split, ListSeparators);
    KeptItemsClean(StripAll(split));
  }

  /** Keeping the non-placeholders of trimmed, separator-free pieces leaves clean items. */
  lemma KeptItemsClean(pieces: seq<string>)
    requires forall k :: 0 <= k < |pieces| ==> Trimmed(pieces[k]) && Avoids(pieces[k], ListSeparators)
    ensures forall i :: 0 <= i < |KeptItems(pieces)| ==> Clean(KeptItems(pieces)[i])
  {
    var kept := KeptItems(pieces);
    forall i | 0 <= i < |kept|
      ensures Clean(kept[i])
    {
      assert kept[i] in pieces;
      var k :| 0 <= k < |pieces| && pieces[k] == kept[i];
    }
  }

  /** A string without separators splits into itself. */
  lemma {:induction false} SplitWithoutSeparator(s: string, seps: set<char>)
    requires Avoids(s, seps)
    ensures Split(s, seps) == [s]
    decreases |s|
  {
    if |s| > 0 {
      SplitWithoutSeparator(s[1..], seps);
      assert [s[0]] + s[1..] == s;
    }
  }

  /** Splitting at a separator: the part before it is one piece, the rest splits on. */
  lemma {:induction false} SplitAtSeparator(a: string, c: char, b: string, seps: set<char>)
    requires Avoids(a, seps)
    requires c in seps
    ensures Split(a + [c] + b, seps) == [a] + Split(b, seps)
    decreases |a|
  {
    var s := a + [c] + b;
    if |a| == 0 {
      assert s[1..] == b;
    } else {
      assert s[1..] == a[1..] + [c] + b;
      SplitAtSeparator(a[1..], c, b, seps);
      assert [a[0]] + a[1..] == a;
    }
  }

  function Spaced(items: seq<string>): (r: seq<string>)
    ensures |r| == |items| && forall i :: 0 <= i < |items| ==> r[i] == " " + items[i]
  {
    seq(|items|, i requires 0 <= i < |items| => " " + items[i])
  }

  /** `", ".join(items)` of clean items splits into the first item and the others,
      each with its leading space. */
  lemma {:induction false} SplitJoined(items: seq<string>)
    requires |items| >= 1
    requires forall i :: 0 <= i < |items| ==> Clean(items[i])
    ensures Split(Join(items, ", "), ListSeparators) == [items[0]] + Spaced(items[1..])
    decreases |items|
  {
    if |items| == 1 {
      SplitWithoutSeparator(items[0], ListSeparators);
    } else {
      var rest := items[1..];
      SplitJoined(rest);
      assert Join(items, ", ") == items[0] + ", " + Join(rest, ", ");
      SplitJoinedStep(items[0], Join(rest, ", "), rest);
    }
  }

  /** One step of `SplitJoined`: a clean item in front of a joined list `j`. */
  lemma SplitJoinedStep(first: string, j: string, rest: seq<string>)
    requires |rest| >= 1 && Avoids(first, ListSeparators)
    requires Split(j, ListSeparators) == [rest[0]] + Spaced(rest[1..])
    ensures Split(first + ", " + j, ListSeparators) == [first] + Spaced(rest)
  {
    assert first + ", " + j == first + [','] + (" " + j);
    SplitAtSeparator(first, ',', " " + j, ListSeparators);
    SplitConsFirst(' ', j, ListSeparators, rest[0], Spaced(rest[1..]));
    SpacedCons(rest);
  }

  /** A leading non-separator joins the first piece. */
  lemma SplitConsFirst(c: char, s: string, seps: set<char>, first: string, tail: seq<string>)
    requires c !in seps
    requires Split(s, seps) == [first] + tail
    ensures Split([c] + s, seps) == [[c] + first] + tail
  {
    SplitCons(c, s, seps);
    assert Split(s, seps)[1..] == tail;
  }

  lemma SpacedCons(items: seq<string>)
    requires |items| >= 1
    ensures Spaced(items) == [" " + items[0]] + Spaced(items[1..])
  {
  }

  /** Stripping a clean item with one leading space gives the item back. */
  lemma StripSpaced(item: string)
    requires Clean(item)
    ensures Strip(" " + item) == item
  {
    assert (" " + item)[1..] == item;
    assert TrimStart(" " + item) == TrimStart(item);
  }

  /** A clean item is its own stripped form. */
  lemma StripClean(item: string)
    requires Clean(item)
    ensures Strip(item) == item
  {
    StripUntouched(item);
  }

  /** The pieces of a joined list strip back to the items. */
  lemma StripAllSpaced(items: seq<string>)
    requires |items| >= 1
    requires forall i :: 0 <= i < |items| ==> Clean(items[i])
    ensures StripAll([items[0]] + Spaced(items[1..])) == items
  {
    var pieces := [items[0]] + Spaced(items[1..]);
    forall i | 0 <= i < |items|
      ensures Strip(pieces[i]) == items[i]
    {
      if i == 0 {
        assert pieces[0] == items[0];
        StripClean(items[0]);
      } else {
        assert pieces[i] == " " + items[i];
        StripSpaced(items[i]);
      }
    }
  }

  /** The first and last characters of a join of non-empty items. */
  lemma {:induction false} JoinEnds(items: seq<string>)
    requires |items| >= 1
    requires forall i :: 0 <= i < |items| ==> items[i] != []
    ensures var j := Join(items, ", "); |j| > 0 && j[0] == items[0][0] && j[|j| - 1] == items[|items| - 1][|items[|items| - 1]| - 1]
    decreases |items|
  {
    if |items| > 1 {
      JoinEnds(items[1..]);
    }
  }

  /** Round trip: a list of clean items written out as `", ".join(items)` is read
      back as exactly that list. */
  lemma ListItemsOfJoin(items: seq<string>)
    requires forall i :: 0 <= i < |items| ==> Clean(items[i])
    ensures ListItems(Join(items, ", ")) == items
  {
    var j := Join(items, ", ");
    WholeCaptureTestRedundant(j);
    if |items| == 0 {
      EmptyCaptureNoItems();
    } else {
      JoinStripped(items);
      SplitJoined(items);
      var pieces := [items[0]] + Spaced(items[1..]);
      assert Split(Strip(j), ListSeparators) == pieces;
      StripAllSpaced(items);
      KeptAll(items);
    }
  }

  lemma EmptyCaptureNoItems()
    ensures KeptItems(StripAll(Split(Strip(""), ListSeparators))) == []
  {
    assert Strip("") == "";
    assert Split("", ListSeparators) == [""];
    assert StripAll([""]) == [""];
    assert [""][..0] == [];
  }

  /** A join of clean items has no whitespace at its ends. */
  lemma JoinStripped(items: seq<string>)
    requires |items| >= 1
    requires forall i :: 0 <= i < |items| ==> Clean(items[i])
    ensures Strip(Join(items, ", ")) == Join(items, ", ")
  {
    assert forall i :: 0 <= i < |items| ==> items[i] != [];
    JoinEnds(items);
    StripUntouched(Join(items, ", "));
  }

  // ---------------------------------------------------------------------------
  // Immunization statuses
  // ---------------------------------------------------------------------------

  /** The vaccine names of the immunization patterns, in the order they are tried. */
  const Vaccines: seq<string> := ["Chicken Pox (Varicella)", "Measles", "Hepatitis"]

  /** What immunization statuses add to `immunizations` and to `medical_history`. */
  datatype Notes = Notes(immunizations: seq<string>, history: seq<string>)

  /** A lower-cased status that records nothing. */
  predicate NoStatus(status: string)
  {
    status == "n/a" || status == "none" || status == ""
  }

  predicate Negated(status: string)
  {
    Contains(status, "not") || Contains(status, "non")
  }

  /** The immunity note of a lower-cased status that mentions "immune". */
  function ImmunityNotes(name: string, status: string): (r: seq<string>)
    ensures |r| <= 1
  {
    if Contains(status, "immune") then
      [if Negated(status) then "Not immune to " + name else "Immune to " + name]
    else []
  }

  /** The vaccination test as the source writes it. */
  predicate VaccinatedAsWritten(status: string)
  {
    Contains(status, "yes") || Contains(status, "vaccinated")
  }

  /** The vaccination test with negated statuses excluded, as the immunity test
      excludes them, and "unvaccinated" read as a negation. */
  predicate Vaccinated(status: string)
  {
    VaccinatedAsWritten(status) && !Negated(status) && !Contains(status, "unvaccinated")
  }

  /** The notes for one stripped status, given the outcome of the vaccination test. */
  function NotesOf(name: string, status: string, vaccinated: bool): (r: Notes)
    ensures |r.immunizations| <= 1 && |r.history| <= 2
  {
    if NoStatus(Lower(status)) then Notes([], [])
    else Notes([name + ": " + status],
               ImmunityNotes(name, Lower(status)) + (if vaccinated then [name + " vaccination"] else []))
  }

  /** The notes for one stripped status with the vaccination test as written. */
  function StatusNotesAsWritten(name: string, status: string): Notes
  {
    NotesOf(name, status, VaccinatedAsWritten(Lower(status)))
  }

  /** The notes for one stripped status, negated statuses not counted as vaccinations. */
  function StatusNotes(name: string, status: string): Notes
  {
    NotesOf(name, status, Vaccinated(Lower(status)))
  }

  lemma LowerNotVaccinated()
    ensures Lower("Not vaccinated") == "not vaccinated"
  {
  }

  /** As written, the status "Not vaccinated" records a vaccination. */
  lemma NotVaccinatedRecordedAsWritten()
    ensures "Measles vaccination" in StatusNotesAsWritten("Measles", "Not vaccinated").history
  {
    LowerNotVaccinated();
    var l := "not vaccinated";
    assert l[4..14] == "vaccinated";
    ContainsAt(l, "vaccinated", 4);
    assert VaccinatedAsWritten(l);
    assert !NoStatus(l);
    assert "Measles" + " vaccination" == "Measles vaccination";
  }

  /** With the corrected test, "Not vaccinated" records no vaccination. */
  lemma NotVaccinatedIgnored()
    ensures "Measles vaccination" !in StatusNotes("Measles", "Not vaccinated").history
  {
    LowerNotVaccinated();
    var l := "not vaccinated";
    assert l[0..3] == "not";
    ContainsAt(l, "not", 0);
    NegatedStatusNoVaccination("Measles", "Not vaccinated");
    assert "Measles" + " vaccination" == "Measles vaccination";
  }

  /** The rules one status follows: a status other than "n/a", "none" or empty is
      recorded as `name: status`; it adds "Not immune to" or "Immune to" exactly
      when it mentions "immune", with or without a negation; and it adds a
      vaccination exactly when it affirms one and is not negated. */
  lemma StatusNotesRules(name: string, status: string)
    ensures var l := Lower(status); var r := StatusNotes(name, status);
      && (NoStatus(l) ==> r == Notes([], []))
      && (!NoStatus(l) ==> r.immunizations == [name + ": " + status])
      && (("Not immune to " + name) in r.history <==> !NoStatus(l) && Contains(l, "immune") && Negated(l))
      && (("Immune to " + name) in r.history <==> !NoStatus(l) && Contains(l, "immune") && !Negated(l))
      && ((name + " vaccination") in r.history <==> !NoStatus(l) && Vaccinated(l))
  {
    var n1 := "Not immune to " + name;
    var n2 := "Immune to " + name;
    var n3 := name + " vaccination";
    assert |n1| != |n2| && |n1| != |n3| && |n2| != |n3|;
  }

  /** A negated status never records a vaccination. */
  lemma NegatedStatusNoVaccination(name: string, status: string)
    requires Negated(Lower(status)) || Contains(Lower(status), "unvaccinated")
    ensures (name + " vaccination") !in StatusNotes(name, status).history
  {
    StatusNotesRules(name, status);
  }

  /** The notes of the vaccines in `names`, each with its stripped captured status
      if its pattern matched. */
  function VaccineNotes(names: seq<string>, captures: string -> Option<string>): (r: Notes)
    ensures |r.immunizations| <= |names| && |r.history| <= 2 * |names|
  {
    if |names| == 0 then Notes([], [])
    else
      var prior := VaccineNotes(names[..|names| - 1], captures);
      var name := names[|names| - 1];
      match captures(name)
      case None => prior
      case Some(c) =>
        var n := StatusNotes(name, Strip(c));
        Notes(prior.immunizations + n.immunizations, prior.history + n.history)
  }

  // ---------------------------------------------------------------------------
  // extract_medical_info
  // ---------------------------------------------------------------------------

  /** The groups the patterns of `extract_medical_info` captured, or `None` where a
      pattern did not match: group 1 of each name and birth-date pattern in the
      order they are tried, the whole address match, group 1 of the pattern of
      each vaccine name, and group 1 of the allergy, medication and problem patterns. */
  datatype Captures = Captures(
    names: seq<Option<string>>,
    births: seq<Option<string>>,
    address: Option<string>,
    immunization: string -> Option<string>,
    allergies: Option<string>,
    medications: Option<string>,
    problems: Option<string>)

  datatype PatientInfo = PatientInfo(name: Option<string>, dob: Option<string>, address: Option<string>)

  datatype MedicalInfo = MedicalInfo(
    patientInfo: PatientInfo,
    medicalHistory: seq<string>,
    medications: seq<string>,
    allergies: seq<string>,
    immunizations: seq<string>,
    diagnoses: seq<string>,
    rawText: string)

  /** The first pattern that matched, as the `for … break` loop finds it. */
  function FirstCapture(matches: seq<Option<string>>): (r: Option<string>)
    ensures r.None? <==> forall k :: 0 <= k < |matches| ==> matches[k].None?
    ensures r.Some? ==> exists k :: 0 <= k < |matches| && matches[k] == r && forall j :: 0 <= j < k ==> matches[j].None?
  {
    if |matches| == 0 then None
    else if matches[0].Some? then matches[0]
    else
      var r := FirstCapture(matches[1..]);
      assert forall k :: 1 <= k < |matches| ==> matches[k] == matches[1..][k - 1];
      r
  }

  function StripCapture(capture: Option<string>): Option<string>
  {
    match capture
    case None => None
    case Some(c) => Some(Strip(c))
  }

  function ListOf(capture: Option<string>): seq<string>
  {
    match capture
    case None => []
    case Some(c) => ListItems(c)
  }

  /** The record `extract_medical_info` returns for a text and the captures of its patterns. */
  function MedicalInfoOf(text: string, captures: Captures): MedicalInfo
  {
    var notes := VaccineNotes(Vaccines, captures.immunization);
    MedicalInfo(
      PatientInfo(StripCapture(FirstCapture(captures.names)),
                  StripCapture(FirstCapture(captures.births)),
                  StripCapture(captures.address)),
      notes.history,
      ListOf(captures.medications),
      ListOf(captures.allergies),
      notes.immunizations,
      ListOf(captures.problems),
      text)
  }

  /** What the record holds: the input text unchanged, at most one immunization
      entry per vaccine and two history notes per vaccine, and clean list items. */
  lemma MedicalInfoShape(text: string, captures: Captures)
    ensures var info := MedicalInfoOf(text, captures);
      && info.rawText == text
      && |info.immunizations| <= 3 && |info.medicalHistory| <= 6
      && (forall i :: 0 <= i < |info.allergies| ==> Clean(info.allergies[i]))
      && (forall i :: 0 <= i < |info.medications| ==> Clean(info.medications[i]))
      && (forall i :: 0 <= i < |info.diagnoses| ==> Clean(info.diagnoses[i]))
  {
    if captures.allergies.Some? {
      ListItemsClean(captures.allergies.value);
    }
    if captures.medications.Some? {
      ListItemsClean(captures.medications.value);
    }
    if captures.problems.Some? {
      ListItemsClean(captures.problems.value);
    }
  }

  /** Nothing captured: every list is empty and no patient detail is recorded. */
  lemma NothingCaptured(text: string, captures: Captures)
    requires forall k :: 0 <= k < |captures.names| ==> captures.names[k].None?
    requires forall k :: 0 <= k < |captures.births| ==> captures.births[k].None?
    requires captures.address.None? && captures.allergies.None?
    requires captures.medications.None? && captures.problems.None?
    requires forall k :: 0 <= k < |Vaccines| ==> captures.immunization(Vaccines[k]).None?
    ensures MedicalInfoOf(text, captures) == MedicalInfo(PatientInfo(None, None, None), [], [], [], [], [], text)
  {
    NoVaccineCaptured(Vaccines, captures.immunization);
  }

  lemma {:induction false} NoVaccineCaptured(names: seq<string>, captures: string -> Option<string>)
    requires forall k :: 0 <= k < |names| ==> captures(names[k]).None?
    ensures VaccineNotes(names, captures) == Notes([], [])
  {
    if |names| > 0 {
      NoVaccineCaptured(names[..|names| - 1], captures);
    }
  }

  /** The first matching pattern's capture: the `for … break` loop. */
  method FirstMatch(matches: seq<Option<string>>) returns (r: Option<string>)
    ensures r == FirstCapture(matches)
  {
    r := None;
    var k := 0;
    while k < |matches| && r.None?
      invariant 0 <= k <= |matches|
      invariant r.None? ==> forall j :: 0 <= j < k ==> matches[j].None?
      invariant r.Some? ==> 0 < k && matches[k - 1] == r && forall j :: 0 <= j < k - 1 ==> matches[j].None?
    {
      r := matches[k];
      k := k + 1;
    }
  }

  lemma KeptItemsSnoc(items: seq<string>, item: string)
    ensures KeptItems(items + [item]) == KeptItems(items) + (if Placeholder(item) then [] else [item])
  {
    assert (items + [item])[..|items|] == items;
  }

  /** The loop over the stripped pieces: `if clean and clean.lower() not in [...]`. */
  method KeepPieces(pieces: seq<string>) returns (items: seq<string>)
    ensures items == KeptItems(pieces)
  {
    items := [];
    var i := 0;
    while i < |pieces|
      invariant 0 <= i <= |pieces|
      invariant items == KeptItems(pieces[..i])
    {
      var clean := pieces[i];
      if !Placeholder(clean) {
        items := items + [clean];
      }
      assert pieces[..i + 1] == pieces[..i] + [clean];
      KeptItemsSnoc(pieces[..i], clean);
      i := i + 1;
    }
    assert pieces[..|pieces|] == pieces;
  }

  /** One list capture: the whole-capture test, then the loop over its pieces. */
  method CollectList(capture: Option<string>) returns (items: seq<string>)
    ensures items == ListOf(capture)
  {
    items := [];
    if capture.Some? {
      var text := Strip(capture.value);
      if Lower(text) != "n/a" && Lower(text) != "none" {
        items := KeepPieces(StripAll(Split(text, ListSeparators)));
      }
    }
  }

  /** One status: its entry, its immunity note and its vaccination note. */
  method RecordStatus(name: string, status: string) returns (notes: Notes)
    ensures notes == StatusNotes(name, status)
  {
    notes := Notes([], []);
    var l := Lower(status);
    if !NoStatus(l) {
      var history: seq<string> := [];
      if Contains(l, "immune") {
        if Negated(l) {
          history := history + ["Not immune to " + name];
        } else {
          history := history + ["Immune to " + name];
        }
      }
      if Vaccinated(l) {
        history := history + [name + " vaccination"];
      }
      notes := Notes([name + ": " + status], history);
    }
  }

  /** The loop over the immunization patterns, for any list of vaccine names. */
  method CollectStatuses(names: seq<string>, captures: string -> Option<string>) returns (notes: Notes)
    ensures notes == VaccineNotes(names, captures)
  {
    notes := Notes([], []);
    var i := 0;
    while i < |names|
      invariant 0 <= i <= |names|
      invariant notes == VaccineNotes(names[..i], captures)
    {
      var name := names[i];
      assert names[..i + 1][..i] == names[..i];
      match captures(name) {
        case None =>
        case Some(c) =>
          var n := RecordStatus(name, Strip(c));
          notes := Notes(notes.immunizations + n.immunizations, notes.history + n.history);
      }
      i := i + 1;
    }
    assert names[..|names|] == names;
  }

  /** The immunization part of `extract_medical_info`, over its three patterns. */
  method CollectImmunizations(captures: string -> Option<string>) returns (notes: Notes)
    ensures notes == VaccineNotes(Vaccines, captures)
  {
    notes := CollectStatuses(Vaccines, captures);
  }

  /** `extract_medical_info`: the record built from the captures, patient details
      first, then immunizations, allergies, medications and diagnoses. */
  method ExtractMedicalInfo(text: string, captures: Captures) returns (info: MedicalInfo)
    ensures info == MedicalInfoOf(text, captures)
  {
    var name := FirstMatch(captures.names);
    var dob := FirstMatch(captures.births);
    var notes := CollectImmunizations(captures.immunization);
    var allergies := CollectList(captures.allergies);
    var medications := CollectList(captures.medications);
    var diagnoses := CollectList(captures.problems);
    info := MedicalInfo(
      PatientInfo(StripCapture(name), StripCapture(dob), StripCapture(captures.address)),
      notes.history, medications, allergies, notes.immunizations, diagnoses, text);
  }
}
