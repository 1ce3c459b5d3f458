/** Quoting the arguments of a unit file, and how systemd reads them back (systemd.service(5),
    "Command lines", and systemd.unit(5), "Specifiers"). */
module UnitText {
  import opened Names

  const MAX_ARGUMENT: nat := 4096

  predicate IsControl(c: char) {
    c < ' ' || '\U{7f}' <= c <= '\U{9f}'
  }

  predicate Quotable(value: string) {
    0 < |value| <= MAX_ARGUMENT && forall i | 0 <= i < |value| :: !IsControl(value[i])
  }

  /** Replacing every occurrence of one character. */
  function Replace(s: string, c: char, with: string): string {
    if s == [] then [] else (if s[0] == c then with else [s[0]]) + Replace(s[1..], c, with)
  }

  /** The replacements in the order the code makes them: each one sees what the ones before it
      inserted. */
  function Replacements(value: string): string {
    Replace(Replace(Replace(Replace(value, '\\', "\\\\"), '"', "\\\""), '%', "%%"), '$', "$$")
  }

  function Quote(value: string): Option<string> {
    if Quotable(value) then Some("\"" + Replacements(value) + "\"") else None
  }

  function EscapeOne(c: char): string {
    match c
    case '\\' => "\\\\"
    case '"' => "\\\""
    case '%' => "%%"
    case '$' => "$$"
    case _ => [c]
  }

  function Escape(value: string): string {
    if value == [] then [] else EscapeOne(value[0]) + Escape(value[1..])
  }

  lemma {:induction false} ReplaceAppend(a: string, b: string, c: char, with: string)
    ensures Replace(a + b, c, with) == Replace(a, c, with) + Replace(b, c, with)
  {
    if a == [] {
      assert a + b == b;
    } else {
      assert (a + b)[1..] == a[1..] + b;
      ReplaceAppend(a[1..], b, c, with);
    }
  }

  lemma ReplaceTwo(x: char, y: char, c: char, with: string)
    ensures Replace([x], c, with) == if x == c then with else [x]
    ensures Replace([x, y], c, with) == Replace([x], c, with) + Replace([y], c, with)
  {
    assert [x, y] == [x] + [y];
    ReplaceAppend([x], [y], c, with);
    assert [x][1..] == [];
  }

  lemma ReplacementsOfOne(c: char)
    ensures Replacements([c]) == EscapeOne(c)
  {
    ReplaceTwo(c, c, '\\', "\\\\");
    ReplaceTwo(c, c, '"', "\\\"");
    ReplaceTwo(c, c, '%', "%%");
    ReplaceTwo(c, c, '$', "$$");
    ReplaceTwo('\\', '\\', '"', "\\\"");
    ReplaceTwo('\\', '\\', '%', "%%");
    ReplaceTwo('\\', '\\', '$', "$$");
    ReplaceTwo('\\', '"', '%', "%%");
    ReplaceTwo('\\', '"', '$', "$$");
    ReplaceTwo('"', '"', '%', "%%");
    ReplaceTwo('"', '"', '$', "$$");
    ReplaceTwo('%', '%', '$', "$$");
  }

  /** The four sequential replacements are one escape of every character. */
  lemma {:induction false} ReplacementsAreEscape(value: string)
    ensures Replacements(value) == Escape(value)
  {
    if value != [] {
      var a, b := [value[0]], value[1..];
      assert value == a + b;
      ReplaceAppend(a, b, '\\', "\\\\");
      var a1, b1 := Replace(a, '\\', "\\\\"), Replace(b, '\\', "\\\\");
      ReplaceAppend(a1, b1, '"', "\\\"");
      var a2, b2 := Replace(a1, '"', "\\\""), Replace(b1, '"', "\\\"");
      ReplaceAppend(a2, b2, '%', "%%");
      ReplaceAppend(Replace(a2, '%', "%%"), Replace(b2, '%', "%%"), '$', "$$");
      ReplacementsOfOne(value[0]);
      ReplacementsAreEscape(b);
    }
  }

  // Reading a command line.

  /** A word and what follows it; `Bad` for an unterminated quote and for quoting that printed units
      never contain. */
  datatype Read = Bad | Word(word: string, rest: string)

  function Prepend(c: char, r: Read): Read {
    match r
    case Bad => Bad
    case Word(word, rest) => Word([c] + word, rest)
  }

  predicate IsSpace(c: char) {
    c == ' ' || c == '\t'
  }

  /** Reads one word; inside double quotes a space belongs to the word. */
  function ReadWord(s: string, quoted: bool): Read {
    if s == [] then if quoted then Bad else Word([], [])
    else if s[0] == '"' then ReadWord(s[1..], !quoted)
    else if s[0] == '\\' then
      if |s| >= 2 && (s[1] == '\\' || s[1] == '"') then Prepend(s[1], ReadWord(s[2..], quoted)) else Bad
    else if !quoted && IsSpace(s[0]) then Word([], s[1..])
    else if !quoted && s[0] == '\'' then Bad
    else Prepend(s[0], ReadWord(s[1..], quoted))
  }

  lemma {:induction false} ReadShortens(s: string, quoted: bool)
    ensures ReadWord(s, quoted).Word? ==> |ReadWord(s, quoted).rest| <= |s|
    ensures ReadWord(s, quoted).Word? && s != [] ==> |ReadWord(s, quoted).rest| < |s|
    decreases |s|
  {
    if s == [] {
    } else if s[0] == '"' {
      ReadShortens(s[1..], !quoted);
    } else if s[0] == '\\' {
      if |s| >= 2 { ReadShortens(s[2..], quoted); }
    } else {
      ReadShortens(s[1..], quoted);
    }
  }

  function Words(s: string): Option<seq<string>>
    decreases |s|
  {
    if s == [] then Some([])
    else if IsSpace(s[0]) then Words(s[1..])
    else
      match ReadWord(s, false)
      case Bad => None
      case Word(word, rest) =>
        ReadShortens(s, false);
        match Words(rest)
        case None => None
        case Some(more) => Some([word] + more)
  }

  /** Specifiers: a doubled percent sign is one; printed units contain no other. */
  function Specify(word: string): Option<string> {
    if word == [] then Some([])
    else if word[0] == '%' then
      if |word| < 2 || word[1] != '%' then None else
      match Specify(word[2..])
      case None => None
      case Some(rest) => Some("%" + rest)
    else
      match Specify(word[1..])
      case None => None
      case Some(rest) => Some([word[0]] + rest)
  }

  function SpecifyAll(words: seq<string>): Option<seq<string>> {
    if words == [] then Some([]) else
    match Specify(words[0])
    case None => None
    case Some(word) =>
      match SpecifyAll(words[1..])
      case None => None
      case Some(rest) => Some([word] + rest)
  }

  /** The arguments as the service manager keeps and reports them. */
  function Arguments(line: string): Option<seq<string>> {
    match Words(line)
    case None => None
    case Some(words) => SpecifyAll(words)
  }

  type Environment = string -> string

  function Brace(s: string): (k: nat)
    ensures k <= |s| && (k < |s| ==> s[k] == '}')
  {
    if s == [] || s[0] == '}' then 0 else 1 + Brace(s[1..])
  }

  /** Environment expansion when the command is started: a doubled dollar sign is one, and a name in
      braces is replaced by its value. */
  function Expand(env: Environment, word: string): string
    decreases |word|
  {
    if word == [] then []
    else if word[0] == '$' && |word| >= 2 && word[1] == '$' then "$" + Expand(env, word[2..])
    else if word[0] == '$' && |word| >= 2 && word[1] == '{' && Brace(word) < |word| then
      env(word[2..Brace(word)]) + Expand(env, word[Brace(word) + 1..])
    else [word[0]] + Expand(env, word[1..])
  }

  // What a quoted value becomes, step by step.

  function Doubled(value: string, c: char): string {
    Replace(value, c, [c, c])
  }

  function Percents(value: string): string {
    Doubled(Doubled(value, '%'), '$')
  }

  function Dollars(value: string): string {
    Doubled(value, '$')
  }

  lemma {:induction false} PercentsOne(value: string)
    requires value != []
    ensures Percents(value) == PercentOne(value[0]) + Percents(value[1..])
    ensures Dollars(value) == (if value[0] == '$' then "$$" else [value[0]]) + Dollars(value[1..])
  {
    var first := if value[0] == '%' then "%%" else [value[0]];
    ReplaceAppend(first, Doubled(value[1..], '%'), '$', "$$");
    ReplaceTwo(value[0], value[0], '$', "$$");
  }

  function PercentOne(c: char): string {
    if c == '%' then "%%" else if c == '$' then "$$" else [c]
  }

  function PrependAll(word: string, r: Read): Read {
    match r
    case Bad => Bad
    case Word(more, rest) => Word(word + more, rest)
  }

  lemma PlainReads(c: char, tail: string)
    requires c != '"' && c != '\\'
    ensures ReadWord([c] + tail, true) == Prepend(c, ReadWord(tail, true))
  {
    assert ([c] + tail)[1..] == tail;
  }

  lemma EscapedReads(c: char, tail: string)
    ensures ReadWord(EscapeOne(c) + tail, true) == PrependAll(PercentOne(c), ReadWord(tail, true))
  {
    if c == '\\' || c == '"' {
      assert (EscapeOne(c) + tail)[2..] == tail;
    } else if c == '%' || c == '$' {
      assert EscapeOne(c) + tail == [c] + ([c] + tail);
      PlainReads(c, [c] + tail);
      PlainReads(c, tail);
      if ReadWord(tail, true).Word? {
        var more := ReadWord(tail, true).word;
        assert [c] + ([c] + more) == PercentOne(c) + more;
      }
    } else {
      PlainReads(c, tail);
    }
  }

  /** After an opening quote, the escaped value and a closing quote are read as one word. */
  lemma {:induction false} QuotedReads(value: string, rest: string)
    requires rest == [] || IsSpace(rest[0])
    ensures ReadWord(Escape(value) + "\"" + rest, true) == Word(Percents(value), if rest == [] then [] else rest[1..])
    decreases |value|
  {
    if value == [] {
      assert Escape(value) + "\"" + rest == "\"" + rest;
      assert ("\"" + rest)[1..] == rest;
      assert Percents(value) == [];
    } else {
      var tail := Escape(value[1..]) + "\"" + rest;
      assert Escape(value) + "\"" + rest == EscapeOne(value[0]) + tail;
      hide ReadWord, Replace, EscapeOne;
      EscapedReads(value[0], tail);
      QuotedReads(value[1..], rest);
      PercentsOne(value);
    }
  }

  lemma SpecifyChar(c: char, rest: string)
    requires c != '%' && Specify(rest).Some?
    ensures Specify([c] + rest) == Some([c] + Specify(rest).value)
  {
    assert ([c] + rest)[1..] == rest;
  }

  lemma {:induction false} SpecifyPercents(value: string)
    ensures Specify(Percents(value)) == Some(Dollars(value))
  {
    if value != [] {
      PercentsOne(value);
      var rest := Percents(value[1..]);
      SpecifyPercents(value[1..]);
      if value[0] == '$' {
        assert "$$" + rest == "$" + ("$" + rest);
        SpecifyChar('$', rest);
        SpecifyChar('$', "$" + rest);
        assert "$" + ("$" + Dollars(value[1..])) == "$$" + Dollars(value[1..]);
      } else if value[0] == '%' {
        assert ("%%" + rest)[2..] == rest;
      } else {
        SpecifyChar(value[0], rest);
      }
    }
  }

  lemma {:induction false} ExpandDollars(env: Environment, value: string)
    ensures Expand(env, Dollars(value)) == value
  {
    if value != [] {
      PercentsOne(value);
      var rest := Dollars(value[1..]);
      ExpandDollars(env, value[1..]);
      if value[0] == '$' {
        assert ("$$" + rest)[2..] == rest;
      } else {
        assert ([value[0]] + rest)[1..] == rest;
      }
    }
  }

  lemma {:induction false} DoubledHas(value: string, c: char)
    ensures Doubled(value, c) == value <==> c !in value
    ensures |Doubled(value, c)| >= |value|
    ensures c in value ==> |Doubled(value, c)| > |value|
  {
    if value != [] {
      DoubledHas(value[1..], c);
      assert value == [value[0]] + value[1..];
    }
  }

  // A command as a list of items.

  /** What a printed command is made of: a word that needs no quoting, a quoted value, or a variable in
      quotes. */
  datatype Item = Bare(text: string) | Quoted(value: string) | Variable(name: string)

  predicate PlainChar(c: char) {
    c != '"' && c != '\'' && c != '\\' && c != '%' && c != ' ' && !IsControl(c)
  }

  predicate PlainWord(word: string) {
    word != [] && forall i | 0 <= i < |word| :: PlainChar(word[i])
  }

  predicate ValidItem(item: Item) {
    match item
    case Bare(text) => PlainWord(text)
    case Quoted(value) => Quotable(value)
    case Variable(name) => PlainWord(name)
  }

  function Print(item: Item): string {
    match item
    case Bare(text) => text
    case Quoted(value) => "\"" + Replacements(value) + "\""
    case Variable(name) => "\"${" + name + "}\""
  }

  /** The argument an item stands for, before environment expansion. */
  function Argument(item: Item): string {
    match item
    case Bare(text) => text
    case Quoted(value) => Dollars(value)
    case Variable(name) => "${" + name + "}"
  }

  function PrintAll(items: seq<Item>): string {
    if items == [] then []
    else if |items| == 1 then Print(items[0])
    else Print(items[0]) + " " + PrintAll(items[1..])
  }

  function ArgumentsOf(items: seq<Item>): (r: seq<string>)
    ensures |r| == |items| && forall i | 0 <= i < |items| :: r[i] == Argument(items[i])
  {
    seq(|items|, i requires 0 <= i < |items| => Argument(items[i]))
  }

  lemma {:induction false} BareReads(word: string, rest: string, quoted: bool)
    requires forall i | 0 <= i < |word| :: PlainChar(word[i])
    requires !quoted ==> rest == [] || IsSpace(rest[0])
    ensures !quoted ==> ReadWord(word + rest, quoted) == Word(word, if rest == [] then [] else rest[1..])
    ensures quoted ==>
              ReadWord(word + rest, quoted) == match ReadWord(rest, true)
                                               case Bad => Bad
                                               case Word(more, left) => Word(word + more, left)
    decreases |word|
  {
    if word == [] {
      assert word + rest == rest;
    } else {
      assert (word + rest)[1..] == word[1..] + rest && (word + rest)[0] == word[0];
      BareReads(word[1..], rest, quoted);
      assert [word[0]] + word[1..] == word;
      if quoted && ReadWord(rest, true).Word? {
        assert [word[0]] + (word[1..] + ReadWord(rest, true).word) == word + ReadWord(rest, true).word;
      }
    }
  }

  lemma VariableReads(name: string, rest: string)
    requires PlainWord(name) && (rest == [] || IsSpace(rest[0]))
    ensures ReadWord(Print(Variable(name)) + rest, false) == Word("${" + name + "}", if rest == [] then [] else rest[1..])
  {
    var inner := "${" + name + "}";
    var line := Print(Variable(name)) + rest;
    assert line[1..] == inner + ("\"" + rest);
    BareReads(inner, "\"" + rest, true);
    assert ("\"" + rest)[1..] == rest;
    assert inner + "" == inner;
  }

  /** The word that is read for one item, before specifiers. */
  function WordOf(item: Item): string {
    match item
    case Bare(text) => text
    case Quoted(value) => Percents(value)
    case Variable(name) => "${" + name + "}"
  }

  lemma ItemReads(item: Item, rest: string)
    requires ValidItem(item) && (rest == [] || IsSpace(rest[0]))
    ensures Print(item) != [] && !IsSpace(Print(item)[0])
    ensures ReadWord(Print(item) + rest, false) == Word(WordOf(item), if rest == [] then [] else rest[1..])
  {
    match item
    case Bare(text) => BareReads(text, rest, false);
    case Quoted(value) =>
      ReplacementsAreEscape(value);
      assert (Print(item) + rest)[1..] == Escape(value) + "\"" + rest;
      QuotedReads(value, rest);
    case Variable(name) => VariableReads(name, rest);
  }

  lemma {:induction false} SpecifyPlain(word: string)
    requires '%' !in word
    ensures Specify(word) == Some(word)
  {
    if word != [] {
      SpecifyPlain(word[1..]);
      assert [word[0]] + word[1..] == word;
    }
  }

  lemma ItemArgument(item: Item)
    requires ValidItem(item)
    ensures Specify(WordOf(item)) == Some(Argument(item))
  {
    match item
    case Bare(text) => SpecifyPlain(text);
    case Quoted(value) => SpecifyPercents(value);
    case Variable(name) =>
      assert forall i | 0 <= i < |name| :: name[i] != '%';
      SpecifyPlain("${" + name + "}");
  }

  /** The words of a line that starts with a printed item. */
  lemma ItemWords(item: Item, rest: string)
    requires ValidItem(item) && (rest == [] || IsSpace(rest[0]))
    ensures Words(Print(item) + rest) ==
            match Words(if rest == [] then [] else rest[1..])
            case None => None
            case Some(more) => Some([WordOf(item)] + more)
  {
    ItemReads(item, rest);
    hide Print, WordOf, ReadWord;
  }

  lemma SpecifyFirst(item: Item, words: seq<string>)
    requires ValidItem(item) && SpecifyAll(words).Some?
    ensures SpecifyAll([WordOf(item)] + words) == Some([Argument(item)] + SpecifyAll(words).value)
  {
    ItemArgument(item);
    hide WordOf, Argument;
    assert ([WordOf(item)] + words)[1..] == words;
  }

  /** A printed command is read back as exactly its arguments. */
  lemma {:induction false} PrintedReads(items: seq<Item>)
    requires forall i | 0 <= i < |items| :: ValidItem(items[i])
    ensures Arguments(PrintAll(items)) == Some(ArgumentsOf(items))
    ensures Words(PrintAll(items)).Some?
    decreases |items|
  {
    hide Print, WordOf, Argument, ReadWord, Specify, ValidItem;
    if items == [] {
      assert ArgumentsOf(items) == [];
    } else {
      var tail := items[1..];
      var rest := if |items| == 1 then "" else " " + PrintAll(tail);
      assert PrintAll(items) == Print(items[0]) + rest;
      ItemWords(items[0], rest);
      PrintedReads(tail);
      assert |items| == 1 ==> tail == [];
      assert |items| > 1 ==> rest[1..] == PrintAll(tail);
      SpecifyFirst(items[0], Words(PrintAll(tail)).value);
      assert ArgumentsOf(items) == [Argument(items[0])] + ArgumentsOf(tail);
    }
  }

  /** Whatever the value and the environment, a quoted value reaches the program unchanged. */
  lemma QuoteRoundTrip(env: Environment, value: string)
    requires Quotable(value)
    ensures var line := Quote(value).value;
            Words(line) == Some([Percents(value)]) && Arguments(line) == Some([Dollars(value)])
            && Expand(env, Arguments(line).value[0]) == value
  {
    var item := Quoted(value);
    var line := Quote(value).value;
    assert line == Print(item) == PrintAll([item]) == Print(item) + "";
    assert WordOf(item) == Percents(value) && Argument(item) == Dollars(value);
    PrintedReads([item]);
    ItemWords(item, "");
    ExpandDollars(env, value);
    hide Print, Quote, Percents, Dollars, Replacements, Specify, ReadWord;
    assert Words("") == Some([]);
    assert [Percents(value)] + [] == [Percents(value)];
    assert ArgumentsOf([item]) == [Dollars(value)];
  }

  /** What can be quoted: 1 to 4096 characters, none of them a control character. */
  lemma QuotableExactly(value: string)
    ensures Quotable(value) <==>
              && 1 <= |value| <= 4096
              && forall i | 0 <= i < |value| :: value[i] as int >= 32 && (value[i] as int < 127 || value[i] as int > 159)
  {
  }

  /** Other specifiers than a percent sign do not read as text. */
  lemma OtherSpecifiers(c: char, rest: string)
    requires c != '%'
    ensures Specify("%" + [c] + rest) == None && Specify("%") == None
  {
    var word := "%" + [c] + rest;
    assert word[0] == '%' && word[1] == c;
  }
}
