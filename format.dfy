/**
  Line formatting (log/com.go): field lookup with defaults and the two
  logrus formatters, ComLogFormatter and AccessFormatter.

  A formatted line is a sequence of bracketed fields `[f] ` followed by the
  message and a newline.  ParseLine reads such a line back; the round-trip
  lemmas show that the formatters put every field, verbatim and in order,
  into the line.
 */
module Format {
  import opened Wrappers

  /** logrus severity levels, most severe first. */
  datatype Level = Panic | Fatal | Error | Warn | Info | Debug | Trace

  /** The level's name as logrus prints it (Level.String). */
  function LevelText(l: Level): string
  {
    match l
    case Panic => "panic"
    case Fatal => "fatal"
    case Error => "error"
    case Warn => "warning"
    case Info => "info"
    case Debug => "debug"
    case Trace => "trace"
  }

  /**
    A value of a logrus.Fields map.  Go's fields are `any`; the kinds whose
    %v rendering is fixed are spelled out, every other kind carries its
    rendering with it.
   */
  datatype Value = Str(s: string) | Int(i: int) | Bool(b: bool) | Nil | Other(rendered: string)

  function DigitChar(d: nat): char
    requires d < 10
  {
    ('0' as int + d) as char
  }

  predicate IsDigits(s: string)
  {
    forall i :: 0 <= i < |s| ==> '0' <= s[i] <= '9'
  }

  /** The decimal digits of `n`, most significant first, without leading zeros. */
  function Digits(n: nat): (r: string)
    ensures |r| >= 1 && IsDigits(r)
    ensures r[0] == '0' ==> n == 0
  {
    if n < 10 then [DigitChar(n)] else Digits(n / 10) + [DigitChar(n % 10)]
  }

  /** The number a string of decimal digits stands for. */
  function DigitsValue(s: string): nat
    requires IsDigits(s)
  {
    if s == [] then 0 else DigitsValue(s[..|s| - 1]) * 10 + (s[|s| - 1] as int - '0' as int)
  }

  /** %v of an integer: optional minus sign, then decimal digits. */
  function DecimalText(i: int): string
  {
    if i < 0 then "-" + Digits(-i) else Digits(i)
  }

  /** Reads back an optionally signed decimal integer. */
  function ParseDecimal(s: string): Option<int>
  {
    if |s| > 1 && s[0] == '-' && IsDigits(s[1..]) then Some(0 - DigitsValue(s[1..]) as int)
    else if |s| > 0 && IsDigits(s) then Some(DigitsValue(s))
    else None
  }

  lemma {:induction false} DigitsRoundTrip(n: nat)
    ensures DigitsValue(Digits(n)) == n
  {
    if n >= 10 {
      var d := Digits(n);
      assert d[..|d| - 1] == Digits(n / 10);
      DigitsRoundTrip(n / 10);
    }
  }

  /** The decimal rendering of an integer reads back as the same integer. */
  lemma DecimalRoundTrip(i: int)
    ensures ParseDecimal(DecimalText(i)) == Some(i)
  {
    if i < 0 {
      var d := Digits(-i);
      var s := "-" + d;
      assert s[1..] == d;
      DigitsRoundTrip(-i);
      assert ParseDecimal(s) == Some(0 - DigitsValue(d) as int);
    } else {
      var d := Digits(i);
      assert d[0] != '-';
      DigitsRoundTrip(i);
      assert ParseDecimal(d) == Some(DigitsValue(d) as int);
    }
  }

  /** fmt.Sprintf("%v", v) for the value kinds above. */
  function Render(v: Value): string
  {
    match v
    case Str(s) => s
    case Int(i) => DecimalText(i)
    case Bool(b) => if b then "true" else "false"
    case Nil => "<nil>"
    case Other(t) => t
  }

  /**
    getStringValue: a present string is returned unchanged, any other present
    value is rendered with %v, and only an absent key yields the default.
   */
  function GetStringValue(data: map<string, Value>, key: string, default: string): (r: string)
    ensures key !in data ==> r == default
    ensures key in data && data[key].Str? ==> r == data[key].s
    ensures key in data ==> r == Render(data[key])
  {
    if key in data then
      match data[key]
      case Str(s) => s
      case _ => Render(data[key])
    else
      default
  }

  /** The default takes part in the result only when the key is absent. */
  lemma DefaultOnlyWhenAbsent(data: map<string, Value>, key: string, d1: string, d2: string)
    ensures key in data ==> GetStringValue(data, key, d1) == GetStringValue(data, key, d2)
    ensures key !in data && d1 != d2 ==> GetStringValue(data, key, d1) != GetStringValue(data, key, d2)
  {
  }

  /** An integer field renders as its decimal text, which reads back as the integer. */
  lemma IntFieldReadsBack(data: map<string, Value>, key: string, default: string)
    requires key in data && data[key].Int?
    ensures ParseDecimal(GetStringValue(data, key, default)) == Some(data[key].i)
  {
    DecimalRoundTrip(data[key].i);
  }

  /** One logrus entry as the formatters see it; `time` is the already formatted timestamp. */
  datatype Entry = Entry(time: string, level: Level, message: string, data: map<string, Value>)

  /** What Format returns: the bytes of the line and an error (always absent here). */
  datatype Formatted = Formatted(bytes: string, err: Option<string>)

  /** The bracketed fields `[f] ` that open every formatted line. */
  function Prefix(fields: seq<string>): string
  {
    if fields == [] then "" else "[" + fields[0] + "] " + Prefix(fields[1..])
  }

  /** The layout both formatters produce: bracketed fields, the message, a newline. */
  function Line(fields: seq<string>, msg: string): string
  {
    Prefix(fields) + msg + "\n"
  }

  predicate NoCloseBracket(s: string)
  {
    forall i :: 0 <= i < |s| ==> s[i] != ']'
  }

  predicate AllNoCloseBracket(fields: seq<string>)
  {
    forall k :: 0 <= k < |fields| ==> NoCloseBracket(fields[k])
  }

  /** The first `]` at or after `from`, if any. */
  function FindClose(s: string, from: nat): (r: Option<nat>)
    decreases |s| - from
    ensures r.Some? ==> from <= r.value < |s| && s[r.value] == ']'
    ensures r.Some? ==> forall j :: from <= j < r.value ==> s[j] != ']'
    ensures r.None? ==> forall j :: from <= j < |s| ==> s[j] != ']'
  {
    if from >= |s| then None
    else if s[from] == ']' then Some(from)
    else FindClose(s, from + 1)
  }

  /** Reads `n` bracketed fields off the front of `s`; returns them and the rest. */
  function ParseFields(n: nat, s: string): (r: Option<(seq<string>, string)>)
    decreases n
    ensures r.Some? ==> |r.value.0| == n && AllNoCloseBracket(r.value.0)
    ensures r.Some? ==> s == Prefix(r.value.0) + r.value.1
  {
    if n == 0 then Some(([], s))
    else if |s| == 0 || s[0] != '[' then None
    else
      match FindClose(s, 1)
      case None => None
      case Some(j) =>
        if j + 1 < |s| && s[j + 1] == ' ' then
          match ParseFields(n - 1, s[j + 2..])
          case None => None
          case Some((fs, rest)) =>
            var fields := [s[1..j]] + fs;
            assert fields[1..] == fs;
            assert s == "[" + s[1..j] + "] " + s[j + 2..];
            Some((fields, rest))
        else None
  }

  /** Reads a whole line of `n` bracketed fields, a message and the final newline. */
  function ParseLine(n: nat, line: string): (r: Option<(seq<string>, string)>)
    ensures r.Some? ==> |r.value.0| == n && line == Line(r.value.0, r.value.1)
  {
    match ParseFields(n, line)
    case None => None
    case Some((fs, rest)) =>
      assert line == Prefix(fs) + rest;
      if |rest| > 0 && rest[|rest| - 1] == '\n' then
        var msg := rest[..|rest| - 1];
        assert rest == msg + "\n";
        Concat3(Prefix(fs), msg, "\n");
        Some((fs, msg))
      else None
  }

  lemma Concat3(a: string, b: string, c: string)
    ensures a + b + c == a + (b + c)
  {
  }

  /** The first `]` after an opening bracket ends a field that holds none. */
  lemma FindCloseAfterField(f: string, tail: string)
    requires NoCloseBracket(f)
    ensures FindClose("[" + f + "] " + tail, 1) == Some(|f| + 1)
  {
    var s := "[" + f + "] " + tail;
    assert s[|f| + 1] == ']';
    assert forall j :: 1 <= j < |f| + 1 ==> s[j] == f[j - 1];
  }

  /** Reading one field free of `]` strips it and goes on with the rest. */
  lemma ParseFieldsStep(n: nat, f: string, tail: string)
    requires n > 0 && NoCloseBracket(f)
    ensures ParseFields(n, "[" + f + "] " + tail) ==
            match ParseFields(n - 1, tail)
            case None => None
            case Some((fs, rest)) => Some(([f] + fs, rest))
  {
    var s := "[" + f + "] " + tail;
    FindCloseAfterField(f, tail);
    assert s[0] == '[' && s[|f| + 2] == ' ';
    assert s[1..|f| + 1] == f;
    assert s[|f| + 3..] == tail;
  }

  /** Fields free of `]` are read back verbatim and in order, whatever follows them. */
  lemma {:induction false} ParseFieldsOfPrefix(fields: seq<string>, rest: string)
    requires AllNoCloseBracket(fields)
    ensures ParseFields(|fields|, Prefix(fields) + rest) == Some((fields, rest))
  {
    if fields != [] {
      var f, tail := fields[0], fields[1..];
      assert fields == [f] + tail;
      PrefixCons(f, tail);
      assert Prefix(fields) + rest == "[" + f + "] " + (Prefix(tail) + rest);
      assert AllNoCloseBracket(tail) by {
        forall k | 0 <= k < |tail| ensures NoCloseBracket(tail[k]) {
          assert tail[k] == fields[k + 1];
        }
      }
      ParseFieldsOfPrefix(tail, rest);
      ParseFieldsStep(|fields|, f, Prefix(tail) + rest);
    } else {
      assert Prefix(fields) + rest == rest;
    }
  }

  lemma PrefixCons(f: string, fs: seq<string>)
    ensures Prefix([f] + fs) == "[" + f + "] " + Prefix(fs)
  {
    assert ([f] + fs)[1..] == fs;
  }

  /** Round trip: a line whose fields are free of `]` parses back into those fields and its message. */
  lemma LineRoundTrip(fields: seq<string>, msg: string)
    requires AllNoCloseBracket(fields)
    ensures ParseLine(|fields|, Line(fields, msg)) == Some((fields, msg))
  {
    var rest := msg + "\n";
    assert Line(fields, msg) == Prefix(fields) + rest;
    ParseFieldsOfPrefix(fields, rest);
    assert rest[..|rest| - 1] == msg;
  }

  /** ComLogFormatter.Format: `[time] [level] message` and a newline; never an error. */
  function ComFormat(e: Entry): (r: Formatted)
    ensures r.err == None
    ensures r.bytes == Line([e.time, LevelText(e.level)], e.message)
    ensures NoCloseBracket(e.time) ==>
      ParseLine(2, r.bytes) == Some(([e.time, LevelText(e.level)], e.message))
  {
    var msg := "[" + e.time + "] " + "[" + LevelText(e.level) + "] " + e.message;
    TwoFieldLine(e.time, LevelText(e.level), e.message);
    assert NoCloseBracket(e.time) ==>
      ParseLine(2, Line([e.time, LevelText(e.level)], e.message)) ==
      Some(([e.time, LevelText(e.level)], e.message)) by {
      if NoCloseBracket(e.time) {
        LineRoundTrip([e.time, LevelText(e.level)], e.message);
      }
    }
    Formatted(msg + "\n", None)
  }

  /** Appending a field to the list appends its bracket to the prefix. */
  lemma {:induction false} PrefixSnoc(fs: seq<string>, f: string)
    ensures Prefix(fs + [f]) == Prefix(fs) + "[" + f + "] "
  {
    if fs == [] {
      assert [] + [f] == [f];
      PrefixCons(f, []);
    } else {
      assert fs + [f] == [fs[0]] + (fs[1..] + [f]);
      PrefixCons(fs[0], fs[1..] + [f]);
      PrefixSnoc(fs[1..], f);
      PrefixCons(fs[0], fs[1..]);
      assert [fs[0]] + fs[1..] == fs;
    }
  }

  /** One more field on the right of a known prefix. */
  lemma PrefixStep(fs: seq<string>, p: string, f: string)
    requires Prefix(fs) == p
    ensures Prefix(fs + [f]) == p + "[" + f + "] "
  {
    PrefixSnoc(fs, f);
  }

  /** The two-field layout written out is the general one. */
  lemma TwoFieldLine(f0: string, f1: string, msg: string)
    ensures "[" + f0 + "] " + "[" + f1 + "] " + msg + "\n" == Line([f0, f1], msg)
  {
    PrefixCons(f0, []);
    assert [f0] + [] == [f0];
    var p0 := "[" + f0 + "] ";
    assert Prefix([f0]) == p0;
    PrefixStep([f0], p0, f1);
    assert [f0] + [f1] == [f0, f1];
  }

  /** The five structured fields of an access line, with their defaults. */
  function AccessFields(e: Entry): (fs: seq<string>)
  {
    [e.time,
     GetStringValue(e.data, "ip", "0.0.0.0"),
     GetStringValue(e.data, "method", "GET"),
     GetStringValue(e.data, "url", "/"),
     GetStringValue(e.data, "status_code", "200"),
     GetStringValue(e.data, "response_size", "0")]
  }

  /**
    AccessFormatter.Format: `[time] [ip] [method] [url] [status_code] [response_size] message`
    and a newline, missing fields falling back to their defaults; never an error.
   */
  function AccessFormat(e: Entry): (r: Formatted)
    ensures r.err == None
    ensures r.bytes == Line(AccessFields(e), e.message)
    ensures AllNoCloseBracket(AccessFields(e)) ==>
      ParseLine(6, r.bytes) == Some((AccessFields(e), e.message))
  {
    var ip := GetStringValue(e.data, "ip", "0.0.0.0");
    var verb := GetStringValue(e.data, "method", "GET");
    var url := GetStringValue(e.data, "url", "/");
    var statusCode := GetStringValue(e.data, "status_code", "200");
    var responseSize := GetStringValue(e.data, "response_size", "0");
    var msg := "[" + e.time + "] " + "[" + ip + "] " + "[" + verb + "] " + "[" + url + "] " +
               "[" + statusCode + "] " + "[" + responseSize + "] " + e.message;
    SixFieldLine(e.time, ip, verb, url, statusCode, responseSize, e.message);
    assert [e.time, ip, verb, url, statusCode, responseSize] == AccessFields(e);
    assert AllNoCloseBracket(AccessFields(e)) ==>
      ParseLine(6, Line(AccessFields(e), e.message)) == Some((AccessFields(e), e.message)) by {
      if AllNoCloseBracket(AccessFields(e)) {
        LineRoundTrip(AccessFields(e), e.message);
      }
    }
    Formatted(msg + "\n", None)
  }

  /** The six-field layout written out is the general one. */
  lemma SixFieldLine(f0: string, f1: string, f2: string, f3: string, f4: string, f5: string,
                     msg: string)
    ensures "[" + f0 + "] " + "[" + f1 + "] " + "[" + f2 + "] " + "[" + f3 + "] " +
            "[" + f4 + "] " + "[" + f5 + "] " + msg + "\n" == Line([f0, f1, f2, f3, f4, f5], msg)
  {
    PrefixCons(f0, []);
    assert [f0] + [] == [f0];
    var p0 := "[" + f0 + "] ";
    assert Prefix([f0]) == p0;
    var p1 := p0 + "[" + f1 + "] ";
    PrefixStep([f0], p0, f1);
    assert [f0] + [f1] == [f0, f1];
    var p2 := p1 + "[" + f2 + "] ";
    PrefixStep([f0, f1], p1, f2);
    assert [f0, f1] + [f2] == [f0, f1, f2];
    var p3 := p2 + "[" + f3 + "] ";
    PrefixStep([f0, f1, f2], p2, f3);
    assert [f0, f1, f2] + [f3] == [f0, f1, f2, f3];
    var p4 := p3 + "[" + f4 + "] ";
    PrefixStep([f0, f1, f2, f3], p3, f4);
    assert [f0, f1, f2, f3] + [f4] == [f0, f1, f2, f3, f4];
    PrefixStep([f0, f1, f2, f3, f4], p4, f5);
    assert [f0, f1, f2, f3, f4] + [f5] == [f0, f1, f2, f3, f4, f5];
  }

  /** With no structured fields at all, every default appears. */
  lemma AccessDefaults(time: string, level: Level, message: string)
    ensures AccessFormat(Entry(time, level, message, map[])).bytes ==
            "[" + time + "] " + "[0.0.0.0] [GET] [/] [200] [0] " + message + "\n"
  {
    var e := Entry(time, level, message, map[]);
    var defaults := ["0.0.0.0", "GET", "/", "200", "0"];
    assert AccessFields(e) == [time] + defaults;
    assert Prefix(defaults) == "[0.0.0.0] [GET] [/] [200] [0] ";
    PrefixCons(time, defaults);
  }

  /**
    With all five fields present as strings, the line carries each of them
    verbatim, in the order ip, method, url, status_code, response_size,
    followed by the message; when none holds a `]` it also reads back into
    exactly those fields.
   */
  lemma AccessVerbatim(time: string, level: Level, message: string,
                       ip: string, verb: string, url: string, status: string, size: string)
    ensures var data := map["ip" := Str(ip), "method" := Str(verb), "url" := Str(url),
                            "status_code" := Str(status), "response_size" := Str(size)];
            AccessFormat(Entry(time, level, message, data)).bytes ==
            Line([time, ip, verb, url, status, size], message)
    ensures var data := map["ip" := Str(ip), "method" := Str(verb), "url" := Str(url),
                            "status_code" := Str(status), "response_size" := Str(size)];
            AllNoCloseBracket([time, ip, verb, url, status, size]) ==>
            ParseLine(6, AccessFormat(Entry(time, level, message, data)).bytes) ==
            Some(([time, ip, verb, url, status, size], message))
  {
    var data := map["ip" := Str(ip), "method" := Str(verb), "url" := Str(url),
                    "status_code" := Str(status), "response_size" := Str(size)];
    var e := Entry(time, level, message, data);
    assert AccessFields(e) == [time, ip, verb, url, status, size];
  }
}
