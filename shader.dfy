/** A shader program (`Shader.h`, `Shader.cpp`): the single-file source
    format with `#shader vertex` / `#shader fragment` sections, the program's
    `usable`/`ID` life cycle and the memoised uniform locations. The file is
    a sequence of lines (or `None` when it cannot be opened); compilation,
    linking and the uniform query are answers of the driver passed in as
    parameters. */
module Shaders {
  import opened Wrappers
  import opened Text
  import opened GlCalls

  /** `Shader_Type`; `Untyped` is its `None`. */
  datatype ShaderType = Untyped | Vertex | Fragment

  /** A line containing `#shader` switches sections and is never emitted. */
  predicate IsMarker(line: string) {
    Contains(line, "#shader")
  }

  /** The section in force after one more line. */
  function NextSection(current: ShaderType, line: string): (next: ShaderType)
    ensures !IsMarker(line) ==> next == current
    ensures IsMarker(line) && Contains(line, "vertex") ==> next == Vertex
    ensures IsMarker(line) && !Contains(line, "vertex") && Contains(line, "fragment") ==> next == Fragment
    ensures IsMarker(line) && !Contains(line, "vertex") && !Contains(line, "fragment") ==> next == current
  {
    if !IsMarker(line) then current
    else if Contains(line, "vertex") then Vertex
    else if Contains(line, "fragment") then Fragment
    else current
  }

  /** The section in force after reading `lines` from section `start`. */
  function SectionAfter(start: ShaderType, lines: seq<string>): ShaderType {
    if lines == [] then start
    else NextSection(SectionAfter(start, lines[..|lines| - 1]), lines[|lines| - 1])
  }

  /** The lines read from section `start` that end up in the code of
      section `t`: the non-marker lines read while `t` was in force. */
  function Emitted(start: ShaderType, lines: seq<string>, t: ShaderType): seq<string> {
    if lines == [] then []
    else
      var init, line := lines[..|lines| - 1], lines[|lines| - 1];
      Emitted(start, init, t) + (if !IsMarker(line) && SectionAfter(start, init) == t then [line] else [])
  }

  /** What `parseShaderSource` returns for a readable file: the code of the
      vertex section when asked for it, the fragment code for anything else. */
  function SourceOf(lines: seq<string>, t: ShaderType): string {
    Join(Emitted(Untyped, lines, if t == Vertex then Vertex else Fragment))
  }

  /** One more line: it joins the code of `t` exactly when it is not a
      marker and `t` is the section in force. */
  lemma EmittedSnoc(start: ShaderType, lines: seq<string>, line: string, t: ShaderType)
    ensures SectionAfter(start, lines + [line]) == NextSection(SectionAfter(start, lines), line)
    ensures Emitted(start, lines + [line], t) ==
              if !IsMarker(line) && SectionAfter(start, lines) == t then Emitted(start, lines, t) + [line]
              else Emitted(start, lines, t)
  {
    assert (lines + [line])[..|lines|] == lines;
  }

  lemma {:induction false} SectionAfterAppend(start: ShaderType, a: seq<string>, b: seq<string>)
    ensures SectionAfter(start, a + b) == SectionAfter(SectionAfter(start, a), b)
    decreases |b|
  {
    if b != [] {
      var b' := b[..|b| - 1];
      assert (a + b)[..|a + b| - 1] == a + b';
      assert (a + b)[|a + b| - 1] == b[|b| - 1];
      SectionAfterAppend(start, a, b');
    } else {
      assert a + b == a;
    }
  }

  /** Reading a file in two parts: the second part continues from the
      section the first part ended in, so repeated sections of the same type
      concatenate in file order. */
  lemma {:induction false} EmittedAppend(start: ShaderType, a: seq<string>, b: seq<string>, t: ShaderType)
    ensures Emitted(start, a + b, t) == Emitted(start, a, t) + Emitted(SectionAfter(start, a), b, t)
    decreases |b|
  {
    if b == [] {
      assert a + b == a;
    } else {
      var b', line := b[..|b| - 1], b[|b| - 1];
      assert (a + b)[..|a + b| - 1] == a + b';
      assert (a + b)[|a + b| - 1] == line;
      EmittedAppend(start, a, b', t);
      SectionAfterAppend(start, a, b');
    }
  }

  /** A marker line is never part of any section's code. */
  lemma {:induction false} MarkersNeverEmitted(start: ShaderType, lines: seq<string>, t: ShaderType)
    ensures forall k :: 0 <= k < |Emitted(start, lines, t)| ==> !IsMarker(Emitted(start, lines, t)[k])
    decreases |lines|
  {
    if lines != [] {
      MarkersNeverEmitted(start, lines[..|lines| - 1], t);
    }
  }

  /** A section's code has no more lines than the file, and every one of
      them is a line of the file. */
  lemma {:induction false} EmittedLinesComeFromFile(start: ShaderType, lines: seq<string>, t: ShaderType)
    ensures |Emitted(start, lines, t)| <= |lines|
    ensures forall k :: 0 <= k < |Emitted(start, lines, t)| ==> Emitted(start, lines, t)[k] in lines
    decreases |lines|
  {
    if lines != [] {
      var init := lines[..|lines| - 1];
      EmittedLinesComeFromFile(start, init, t);
      assert forall l :: l in init ==> l in lines;
    }
  }

  /** Lines without a marker leave the section as it was. */
  lemma {:induction false} NoMarkerKeepsSection(start: ShaderType, lines: seq<string>)
    requires forall k :: 0 <= k < |lines| ==> !IsMarker(lines[k])
    ensures SectionAfter(start, lines) == start
    decreases |lines|
  {
    if lines != [] {
      NoMarkerKeepsSection(start, lines[..|lines| - 1]);
    }
  }

  /** The file starts in no section, so lines before the first marker line
      belong to no code: a file of such lines yields nothing, and putting
      them in front of a file changes neither the vertex nor the fragment
      code. */
  lemma {:induction false} PreambleDropped(preamble: seq<string>, rest: seq<string>, t: ShaderType)
    requires forall k :: 0 <= k < |preamble| ==> !IsMarker(preamble[k])
    requires t != Untyped
    ensures Emitted(Untyped, preamble, t) == []
    ensures Emitted(Untyped, preamble + rest, t) == Emitted(Untyped, rest, t)
  {
    EmptyWhileUntyped(preamble, t);
    EmittedAppend(Untyped, preamble, rest, t);
    NoMarkerKeepsSection(Untyped, preamble);
  }

  lemma {:induction false} EmptyWhileUntyped(lines: seq<string>, t: ShaderType)
    requires forall k :: 0 <= k < |lines| ==> !IsMarker(lines[k])
    requires t != Untyped
    ensures Emitted(Untyped, lines, t) == []
    decreases |lines|
  {
    if lines != [] {
      EmptyWhileUntyped(lines[..|lines| - 1], t);
      NoMarkerKeepsSection(Untyped, lines[..|lines| - 1]);
    }
  }

  /** A file that opens with a `#shader vertex` line and holds no other
      marker: all the rest is vertex code, and the fragment code is empty. */
  lemma {:induction false} SingleVertexSection(marker: string, body: seq<string>)
    requires IsMarker(marker) && Contains(marker, "vertex")
    requires forall k :: 0 <= k < |body| ==> !IsMarker(body[k])
    ensures SourceOf([marker] + body, Vertex) == Join(body)
    ensures SourceOf([marker] + body, Fragment) == ""
  {
    EmittedAppend(Untyped, [marker], body, Vertex);
    EmittedAppend(Untyped, [marker], body, Fragment);
    assert [marker][..0] == [];
    assert SectionAfter(Untyped, [marker]) == Vertex;
    assert Emitted(Untyped, [marker], Vertex) == [];
    assert Emitted(Untyped, [marker], Fragment) == [];
    AllEmittedInSection(Vertex, body);
    EmittedElsewhereEmpty(Vertex, body, Fragment);
    assert Emitted(Untyped, [marker] + body, Vertex) == body;
    assert Emitted(Untyped, [marker] + body, Fragment) == [];
  }

  /** With no marker, a section's code is every line. */
  lemma {:induction false} AllEmittedInSection(t: ShaderType, lines: seq<string>)
    requires forall k :: 0 <= k < |lines| ==> !IsMarker(lines[k])
    ensures Emitted(t, lines, t) == lines
    decreases |lines|
  {
    if lines != [] {
      var init := lines[..|lines| - 1];
      AllEmittedInSection(t, init);
      NoMarkerKeepsSection(t, init);
      assert init + [lines[|lines| - 1]] == lines;
    }
  }

  /** With no marker, no other section's code grows. */
  lemma {:induction false} EmittedElsewhereEmpty(t: ShaderType, lines: seq<string>, other: ShaderType)
    requires forall k :: 0 <= k < |lines| ==> !IsMarker(lines[k])
    requires other != t
    ensures Emitted(t, lines, other) == []
    decreases |lines|
  {
    if lines != [] {
      EmittedElsewhereEmpty(t, lines[..|lines| - 1], other);
      NoMarkerKeepsSection(t, lines[..|lines| - 1]);
    }
  }

  lemma JoinOne(codeLines: seq<string>, line: string)
    ensures Join(codeLines + [line]) == Join(codeLines) + line + "\n"
  {
    JoinAppend(codeLines, [line]);
    assert Join([line]) == line + "\n" + Join([]);
  }

  /** The game object's running flag, which an unusable shader clears. The
      rest of `Game` is not part of this model. */
  class Game {
    var running: bool

    constructor()
      ensures running
    {
      running := true;
    }
  }

  /** `getUniformLocation` on values: the cached location if the name has one,
      otherwise the driver's answer, which is then cached (−1 included). */
  function Lookup(cache: map<string, int>, name: string, answer: int): (r: (int, map<string, int>))
    ensures name in cache ==> r == (cache[name], cache)
    ensures name !in cache ==> r == (answer, cache[name := answer])
  {
    if name in cache then (cache[name], cache)
    else (answer, cache[name := answer])
  }

  /** Looking a name up twice gives the same location and the same cache as
      once, whatever the driver would answer the second time: the driver is
      asked at most once per name. */
  lemma LookupIdempotent(cache: map<string, int>, name: string, first: int, second: int)
    ensures var once := Lookup(cache, name, first);
            Lookup(once.1, name, second) == once
  {
  }

  /** A lookup only adds the name it was asked for, and never changes an
      entry already cached. */
  lemma LookupKeepsCache(cache: map<string, int>, name: string, answer: int)
    ensures var r := Lookup(cache, name, answer).1;
            r.Keys == cache.Keys + {name} && forall n :: n in cache ==> r[n] == cache[n]
  {
  }

  class Shader {
    var uniformLocationCache: map<string, int>
    var usable: bool
    /** `ID`: the program name, 0 when there is none. */
    var id: nat

    /** `Shader()`: not usable and nothing cached. The C++ constructor leaves
        `ID` uninitialised; here it starts at 0. */
    constructor()
      ensures !usable && id == 0 && uniformLocationCache == map[]
    {
      usable, id, uniformLocationCache := false, 0, map[];
    }

    /** `parseShaderSource`: one pass over the lines, tracking the section
        and appending `line + '\n'` to the code of the section in force. */
    method ParseShaderSource(file: Option<seq<string>>, t: ShaderType) returns (source: string)
      ensures file.None? ==> source == ""
      ensures file.Some? ==> source == SourceOf(file.value, t)
    {
      if file.None? {
        return "";
      }
      var lines := file.value;
      var current := Untyped;
      var vertexCode, fragmentCode := "", "";
      for i := 0 to |lines|
        invariant current == SectionAfter(Untyped, lines[..i])
        invariant vertexCode == Join(Emitted(Untyped, lines[..i], Vertex))
        invariant fragmentCode == Join(Emitted(Untyped, lines[..i], Fragment))
      {
        var line := lines[i];
        assert lines[..i + 1] == lines[..i] + [line];
        EmittedSnoc(Untyped, lines[..i], line, Vertex);
        EmittedSnoc(Untyped, lines[..i], line, Fragment);
        ghost var vertexLines, fragmentLines := Emitted(Untyped, lines[..i], Vertex), Emitted(Untyped, lines[..i], Fragment);
        if Contains(line, "#shader") {
          if Contains(line, "vertex") {
            current := Vertex;
          } else if Contains(line, "fragment") {
            current := Fragment;
          }
        } else {
          if current == Vertex {
            JoinOne(vertexLines, line);
            vertexCode := vertexCode + line + "\n";
          } else if current == Fragment {
            JoinOne(fragmentLines, line);
            fragmentCode := fragmentCode + line + "\n";
          }
        }
      }
      assert lines[..|lines|] == lines;
      source := if t == Vertex then vertexCode else fragmentCode;
    }

    /** `init`: both sections are parsed and compiled (`compile` gives the
        shader name the driver returns, 0 on failure); the program is created
        and linked only when both names are non-zero. `programId` is what
        `glCreateProgram` returns and `linked` the link status. */
    method Init(file: Option<seq<string>>, compile: (ShaderType, string) -> nat, programId: nat, linked: bool)
      modifies this
      ensures var vs, fs := compile(Vertex, ParsedSource(file, Vertex)), compile(Fragment, ParsedSource(file, Fragment));
              if vs == 0 || fs == 0 then
                id == old(id) && usable == old(usable)
              else
                id == programId && usable == (old(usable) || linked)
      ensures uniformLocationCache == old(uniformLocationCache)
    {
      var vertexSource := ParseShaderSource(file, Vertex);
      var fragmentSource := ParseShaderSource(file, Fragment);
      var vertexShader := compile(Vertex, vertexSource);
      var fragmentShader := compile(Fragment, fragmentSource);
      if vertexShader == 0 || fragmentShader == 0 {
        return;
      }
      CreateProgram(programId, linked);
    }

    /** `createProgram`: the new program becomes `ID` and is validated. */
    method CreateProgram(programId: nat, linked: bool)
      modifies this
      ensures id == programId && usable == (old(usable) || linked)
      ensures uniformLocationCache == old(uniformLocationCache)
    {
      id := programId;
      ValidateProgram(linked);
    }

    /** `validateProgram`: a successful link makes the program usable; a
        failed one only logs, so `usable` is never cleared here. */
    method ValidateProgram(linked: bool)
      modifies this
      ensures usable == (old(usable) || linked)
      ensures id == old(id) && uniformLocationCache == old(uniformLocationCache)
    {
      if linked {
        usable := true;
      }
    }

    /** `getUniformLocation`: `query` is `glGetUniformLocation`. */
    method GetUniformLocation(name: string, query: (nat, string) -> int) returns (location: int)
      modifies this
      ensures (location, uniformLocationCache) == Lookup(old(uniformLocationCache), name, query(id, name))
      ensures id == old(id) && usable == old(usable)
    {
      if name in uniformLocationCache {
        return uniformLocationCache[name];
      }
      location := query(id, name);
      uniformLocationCache := uniformLocationCache[name := location];
    }

    /** `bind`: a usable program is made current; an unusable one stops the
        game instead. */
    method Bind(game: Game) returns (calls: seq<GlCall>)
      modifies game
      ensures usable ==> calls == [UseProgram(id)] && game.running == old(game.running)
      ensures !usable ==> calls == [] && !game.running
    {
      calls := [];
      if usable {
        calls := [UseProgram(id)];
      }
      if !usable {
        game.running := false;
      }
    }

    /** `free`: a usable program is unbound and deleted; an unusable one
        with a name is deleted; either way the name and the cache are reset.
        With no program nothing happens. */
    method Free() returns (calls: seq<GlCall>)
      modifies this
      ensures id == 0 && !usable
      ensures old(usable) ==> calls == [UseProgram(0), DeleteProgram(old(id))] && uniformLocationCache == map[]
      ensures !old(usable) && old(id) != 0 ==> calls == [DeleteProgram(old(id))] && uniformLocationCache == map[]
      ensures !old(usable) && old(id) == 0 ==> calls == [] && uniformLocationCache == old(uniformLocationCache)
    {
      calls := [];
      if usable {
        calls := [UseProgram(0), DeleteProgram(id)];
        id := 0;
        usable := false;
        uniformLocationCache := map[];
      } else if id != 0 {
        calls := [DeleteProgram(id)];
        id := 0;
        uniformLocationCache := map[];
      }
    }
  }

  /** The source `parseShaderSource` returns for a file that may be missing. */
  function ParsedSource(file: Option<seq<string>>, t: ShaderType): string {
    if file.None? then "" else SourceOf(file.value, t)
  }
}
