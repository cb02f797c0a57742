/** scripts/audit_windows_compat.py: what one node by itself gives rise to, said by the parts of
    its texts and the tables, and what a whole run reports. */
module AuditForms {
  import opened Text
  import opened Auditor
  import opened AuditPaths

  // ---- texts taken apart

  /** A module's first name: up to the first dot. */
  predicate TopParts(name: string, top: string, rest: string) {
    name == top + rest && '.' !in top && (rest == "" || rest[0] == '.')
  }

  lemma {:induction false} TopExactly(name: string, top: string)
    ensures Top(name) == top <==> exists rest :: TopParts(name, top, rest)
  {
    var n := |Top(name)|;
    TopForm(name);
    if Top(name) == top { assert TopParts(name, top, name[n..]); }
    if rest :| TopParts(name, top, rest) { TopOf(top, rest); }
  }

  lemma {:induction false} TopForm(name: string)
    ensures |Top(name)| <= |name| && TopParts(name, Top(name), name[|Top(name)|..])
  {
    if name != "" && name[0] != '.' {
      TopForm(name[1..]);
      var t := Top(name[1..]);
      assert name == [name[0]] + (t + name[1..][|t|..]);
      assert name[|t| + 1..] == name[1..][|t|..];
    }
  }

  lemma {:induction false} TopOf(top: string, rest: string)
    requires '.' !in top && (rest == "" || rest[0] == '.')
    ensures Top(top + rest) == top
  {
    if top == "" {
      assert top + rest == rest;
    } else {
      assert (top + rest)[1..] == top[1..] + rest;
      TopOf(top[1..], rest);
    }
  }

  /** A path's last part: what follows the last slash. */
  predicate BaseParts(path: string, dir: string, base: string) {
    path == dir + base && '/' !in base && (dir == "" || dir[|dir| - 1] == '/')
  }

  lemma BaseExactly(path: string, base: string)
    ensures Basename(path) == base <==> exists dir :: BaseParts(path, dir, base)
  {
    var dir := BaseForm(path);
    if dir' :| BaseParts(path, dir', base) { BaseOf(dir', base); }
  }

  lemma {:induction false} BaseForm(path: string) returns (dir: string)
    ensures BaseParts(path, dir, Basename(path))
  {
    if '/' !in path {
      dir := "";
      if path != "" { assert Basename(path) == path; }
    } else {
      var more := BaseForm(path[1..]);
      dir := [path[0]] + more;
      assert path == [path[0]] + path[1..];
      if more == "" { assert '/' !in path[1..]; }
    }
  }

  lemma {:induction false} BaseOf(dir: string, base: string)
    requires '/' !in base && (dir == "" || dir[|dir| - 1] == '/')
    ensures Basename(dir + base) == base
  {
    if dir == "" {
      assert dir + base == base;
    } else {
      assert (dir + base)[1..] == dir[1..] + base;
      assert (dir + base)[|dir| - 1] == '/';
      BaseOf(dir[1..], base);
    }
  }

  /** A text's first word: after the blanks, up to the next. */
  predicate WordParts(text: string, gap: string, word: string, rest: string) {
    && text == gap + (word + rest) && Blank(gap) && word != ""
    && (forall i :: 0 <= i < |word| ==> !IsSpace(word[i])) && (rest == "" || IsSpace(rest[0]))
  }

  function FirstWord(text: string): Option<string> {
    if SkipSpaces(text) == "" then None else Some(Word(SkipSpaces(text)))
  }

  lemma FirstWordExactly(text: string, word: string)
    ensures FirstWord(text) == Some(word) <==> exists gap, rest :: WordParts(text, gap, word, rest)
  {
    if FirstWord(text) == Some(word) {
      var gap := SkipForm(text);
      var rest := WordForm(SkipSpaces(text));
      assert WordParts(text, gap, word, rest);
    }
    if gap, rest :| WordParts(text, gap, word, rest) {
      SkipOf(gap, word + rest);
      WordOf(word, rest);
    }
  }

  lemma {:induction false} SkipForm(s: string) returns (gap: string)
    ensures Blank(gap) && s == gap + SkipSpaces(s) && (SkipSpaces(s) != "" ==> !IsSpace(SkipSpaces(s)[0]))
  {
    if s != "" && IsSpace(s[0]) {
      var more := SkipForm(s[1..]);
      gap := [s[0]] + more;
      assert s == [s[0]] + s[1..];
    } else {
      gap := "";
    }
  }

  lemma {:induction false} SkipOf(gap: string, t: string)
    requires Blank(gap) && (t == "" || !IsSpace(t[0]))
    ensures SkipSpaces(gap + t) == t
  {
    if gap == "" {
      assert gap + t == t;
    } else {
      assert IsSpace(gap[0]) && (gap + t)[1..] == gap[1..] + t;
      SkipOf(gap[1..], t);
    }
  }

  lemma {:induction false} WordForm(s: string) returns (rest: string)
    ensures s == Word(s) + rest && (rest == "" || IsSpace(rest[0]))
    ensures (forall i :: 0 <= i < |Word(s)| ==> !IsSpace(Word(s)[i])) && (s != "" && !IsSpace(s[0]) ==> Word(s) != "")
  {
    if s == "" || IsSpace(s[0]) {
      rest := s;
    } else {
      rest := WordForm(s[1..]);
      assert s == [s[0]] + (Word(s[1..]) + rest);
    }
  }

  lemma {:induction false} WordOf(word: string, rest: string)
    requires (forall i :: 0 <= i < |word| ==> !IsSpace(word[i])) && (rest == "" || IsSpace(rest[0]))
    ensures Word(word + rest) == word
  {
    if word == "" {
      assert word + rest == rest;
    } else {
      assert (word + rest)[1..] == word[1..] + rest;
      WordOf(word[1..], rest);
    }
  }

  // ---- imports

  ghost predicate ModuleOf(rules: Rules, name: string, top: string) {
    top in rules.modules && exists rest :: TopParts(name, top, rest)
  }

  ghost predicate ImportGives(rules: Rules, name: string, line: nat, detail: string, f: Finding) {
    exists top :: ModuleOf(rules, name, top) && f == Finding(rules.modules[top], "posix-module", line, detail)
  }

  lemma ModuleIs(rules: Rules, name: string, line: nat, detail: string, f: Finding)
    ensures Top(name) in rules.modules && f == Finding(rules.modules[Top(name)], "posix-module", line, detail)
       <==> ImportGives(rules, name, line, detail, f)
  {
    TopExactly(name, Top(name));
    if top :| ModuleOf(rules, name, top) && f == Finding(rules.modules[top], "posix-module", line, detail) {
      TopExactly(name, top);
    }
    if Top(name) in rules.modules { assert ModuleOf(rules, name, Top(name)); }
  }

  lemma {:induction false} ImportsExactly(rules: Rules, names: seq<string>, line: nat, f: Finding)
    ensures f in ImportsOf(rules, names, line)
       <==> exists i :: 0 <= i < |names| && ImportGives(rules, names[i], line, "import " + names[i], f)
  {
    if names != [] {
      ImportsExactly(rules, names[1..], line, f);
      ModuleIs(rules, names[0], line, "import " + names[0], f);
      if i :| 0 <= i < |names[1..]| && ImportGives(rules, names[1..][i], line, "import " + names[1..][i], f) {
        assert names[i + 1] == names[1..][i];
      }
      if i :| 0 <= i < |names| && ImportGives(rules, names[i], line, "import " + names[i], f) {
        assert i > 0 ==> names[i] == names[1..][i - 1];
      }
    }
  }

  // ---- keywords and programs

  predicate KeywordGives(rules: Rules, k: Node, line: nat, f: Finding) {
    && k.Keyword? && k.arg.Some? && k.arg.value != "" && k.arg.value in rules.kwargs
    && f == Finding(rules.kwargs[k.arg.value], "posix-kwarg", line, k.arg.value + "=...")
  }

  lemma {:induction false} KwargsExactly(rules: Rules, keywords: seq<Node>, line: nat, f: Finding)
    ensures f in KwargsOf(rules, keywords, line) <==> exists i :: 0 <= i < |keywords| && KeywordGives(rules, keywords[i], line, f)
  {
    if keywords != [] {
      KwargsExactly(rules, keywords[1..], line, f);
      if i :| 0 <= i < |keywords[1..]| && KeywordGives(rules, keywords[1..][i], line, f) {
        assert keywords[i + 1] == keywords[1..][i];
      }
      if i :| 0 <= i < |keywords| && KeywordGives(rules, keywords[i], line, f) {
        assert i > 0 ==> keywords[i] == keywords[1..][i - 1];
      }
    }
  }

  /** A call that may start a program. */
  predicate Starts(func: Node) {
    || (func.Name? && (func.id == "popen" || func.id == "system"))
    || (func.Attribute? && (func.attr == "run" || func.attr == "call" || func.attr == "check_call" || func.attr == "check_output"
                            || func.attr == "Popen" || func.attr == "system" || func.attr == "popen" || func.attr == "getoutput"))
  }

  /** The first argument names a program: it begins a string, or is the first string of a list. */
  ghost predicate NamesProgram(args: seq<Node>, name: string) {
    args != []
    && ((args[0].Str? && exists gap, rest :: WordParts(args[0].text, gap, name, rest))
        || (args[0].List? && args[0].elts != [] && args[0].elts[0].Str? && args[0].elts[0].text == name))
  }

  ghost predicate BinaryAt(rules: Rules, args: seq<Node>, name: string, dir: string, binary: string) {
    NamesProgram(args, name) && BaseParts(name, dir, binary) && binary in rules.binaries
  }

  ghost predicate ProgramGives(rules: Rules, func: Node, args: seq<Node>, line: nat, f: Finding) {
    Starts(func) && exists name, dir, binary ::
      BinaryAt(rules, args, name, dir, binary)
      && f == Finding(rules.binaries[binary], "posix-binary", line, "invokes `" + binary + "`")
  }

  lemma ProgramExactly(args: seq<Node>, name: string)
    ensures Program(args) == Some(name) <==> NamesProgram(args, name)
  {
    if args != [] && args[0].Str? { FirstWordExactly(args[0].text, name); }
  }

  lemma BinaryExactly(rules: Rules, func: Node, args: seq<Node>, line: nat, f: Finding)
    ensures f in BinaryOf(rules, func, args, line) <==> ProgramGives(rules, func, args, line, f)
  {
    assert IsProcessCall(func) <==> Starts(func);
    if f in BinaryOf(rules, func, args, line) {
      var name := Program(args).value;
      ProgramExactly(args, name);
      var dir := BaseForm(name);
      assert BinaryAt(rules, args, name, dir, Basename(name));
    }
    if ProgramGives(rules, func, args, line, f) {
      var name, dir, binary :| BinaryAt(rules, args, name, dir, binary)
        && f == Finding(rules.binaries[binary], "posix-binary", line, "invokes `" + binary + "`");
      ProgramExactly(args, name);
      BaseOf(dir, binary);
    }
  }

  // ---- one node

  /** What each kind of node gives rise to; every other kind to nothing. */
  ghost predicate Gives(rules: Rules, node: Node, f: Finding) {
    match node
    case Import(line, names) => exists i :: 0 <= i < |names| && ImportGives(rules, names[i], line, "import " + names[i], f)
    case ImportFrom(line, source) =>
      source.Some? && source.value != "" && ImportGives(rules, source.value, line, "from " + source.value + " import ...", f)
    case Attribute(line, value, attr) =>
      || (value == Name("os") && attr in rules.osAttrs && f == Finding(rules.osAttrs[attr], "posix-os-api", line, "os." + attr))
      || (value == Name("signal") && attr in rules.signals && f == Finding(rules.signals[attr], "posix-signal", line, "signal." + attr))
    case Call(line, func, args, keywords) =>
      || (exists i :: 0 <= i < |keywords| && KeywordGives(rules, keywords[i], line, f))
      || ProgramGives(rules, func, args, line, f)
    case Str(line, text) =>
      && |text| >= 6 && (exists i :: 0 <= i < |rules.prefixes| && rules.prefixes[i] <= text)
      && f == Finding(WARNING, "abs-posix-path", line, "hard-coded path '" + text + "'")
    case _ => false
  }

  lemma GivesExactly(rules: Rules, node: Node, f: Finding)
    ensures f in Local(rules, node) <==> Gives(rules, node, f)
  {
    match node
    case Import(line, names) => ImportsExactly(rules, names, line, f);
    case ImportFrom(line, source) =>
      if source.Some? { ModuleIs(rules, source.value, line, "from " + source.value + " import ...", f); }
    case Attribute(_, _, _) =>
    case Call(line, func, args, keywords) =>
      KwargsExactly(rules, keywords, line, f);
      BinaryExactly(rules, func, args, line, f);
    case Str(line, text) => PrefixExactly(rules, text);
    case _ =>
  }

  lemma PrefixExactly(rules: Rules, text: string)
    ensures StartsWith(text, rules.prefixes) <==> exists i :: 0 <= i < |rules.prefixes| && rules.prefixes[i] <= text
  {
    forall i | 0 <= i < |rules.prefixes|
      ensures rules.prefixes[i] <= text <==> |rules.prefixes[i]| <= |text| && text[..|rules.prefixes[i]|] == rules.prefixes[i]
    {
    }
  }

  // ---- a whole run

  /** How it is reported under so many guards. */
  function Printed(what: Finding, guards: nat): Finding {
    if guards == 0 then what else Finding(NOTE, what.category, what.line, what.detail + " (inside a platform guard)")
  }

  ghost predicate ReportedFrom(rules: Rules, tree: Node, path: Path, what: Finding, guards: nat) {
    && Visited(tree, path) && Reaches(tree, path) && Gives(rules, NodeAt(tree, path), what) && GuardsOn(tree, path) == guards
  }

  ghost predicate ReportedIn(rules: Rules, tree: Node, f: Finding) {
    exists path, what, guards :: ReportedFrom(rules, tree, path, what, guards) && f == Printed(what, guards)
  }

  /** A run reports exactly what the nodes it comes to give rise to, each downgraded and marked once
      when any guard stands on the way to it. */
  lemma ReportExactly(rules: Rules, trees: seq<Node>, f: Finding)
    ensures f in AllReported(rules, trees) <==> exists k :: 0 <= k < |trees| && ReportedIn(rules, trees[k], f)
  {
    if f in AllReported(rules, trees) {
      var k := TreeOf(rules, trees, f);
    }
    if k :| 0 <= k < |trees| && ReportedIn(rules, trees[k], f) {
      OfTree(rules, trees, k, f);
    }
  }

  lemma ReportedOne(rules: Rules, tree: Node, f: Finding)
    ensures f in ReportedAll(Occurrences(rules, tree), 0) <==> ReportedIn(rules, tree, f)
  {
    var found := Occurrences(rules, tree);
    if f in ReportedAll(found, 0) {
      var i :| 0 <= i < |found| && Reported(found[i], 0) == f;
      FoundReported(rules, tree, found[i]);
    }
    if ReportedIn(rules, tree, f) {
      var path, what, guards :| ReportedFrom(rules, tree, path, what, guards) && f == Printed(what, guards);
      ReportedFound(rules, tree, path, what, guards);
      var i :| 0 <= i < |found| && found[i] == Found(what, guards);
      assert ReportedAll(found, 0)[i] == f;
    }
  }

  lemma FoundReported(rules: Rules, tree: Node, x: Found)
    requires x in Occurrences(rules, tree)
    ensures ReportedIn(rules, tree, Reported(x, 0))
  {
    var path := PathOfFound(rules, tree, x);
    GivesExactly(rules, NodeAt(tree, path), x.what);
    assert ReportedFrom(rules, tree, path, x.what, x.guards);
    assert Reported(x, 0) == Printed(x.what, x.guards);
  }

  lemma ReportedFound(rules: Rules, tree: Node, path: Path, what: Finding, guards: nat)
    requires ReportedFrom(rules, tree, path, what, guards)
    ensures Found(what, guards) in Occurrences(rules, tree)
  {
    GivesExactly(rules, NodeAt(tree, path), what);
    FoundOfPath(rules, tree, path, Found(what, guards));
  }

  lemma {:induction false} TreeOf(rules: Rules, trees: seq<Node>, f: Finding) returns (k: nat)
    requires f in AllReported(rules, trees)
    ensures k < |trees| && ReportedIn(rules, trees[k], f)
  {
    var n := |trees| - 1;
    if f in ReportedAll(Occurrences(rules, trees[n]), 0) {
      ReportedOne(rules, trees[n], f);
      k := n;
    } else {
      k := TreeOf(rules, trees[..n], f);
    }
  }

  lemma {:induction false} OfTree(rules: Rules, trees: seq<Node>, k: nat, f: Finding)
    requires k < |trees| && ReportedIn(rules, trees[k], f)
    ensures f in AllReported(rules, trees)
  {
    var n := |trees| - 1;
    if k == n {
      ReportedOne(rules, trees[n], f);
    } else {
      OfTree(rules, trees[..n], k, f);
    }
  }
}
