/**
 * x265_plugin_name: the plugin's display name, built with strcpy/strcat
 * into a static, fixed-size char buffer (src/heif_encoder_x265.cc, 50-66).
 */
module X265PluginName {

  /** Size of the static buffer, terminating NUL included. */
  const MAX_PLUGIN_NAME_LENGTH: nat := 80

  const NUL: char := '\0'

  const BaseName: string := "x265 HEVC encoder"

  /** A C string's characters: no NUL inside. */
  predicate IsCString(s: string) {
    NUL !in s
  }

  /**
   * The name x265_plugin_name leaves in its buffer: the version in
   * parentheses is appended only when the length test on line 59 passes.
   */
  function ExpectedName(version: string): (name: string)
    requires IsCString(version)
    ensures BaseName <= name && IsCString(name)
    ensures name == BaseName + " (" + version + ")" <==> |version| + |BaseName| + 4 < MAX_PLUGIN_NAME_LENGTH
    ensures name == BaseName <==> |version| + |BaseName| + 4 >= MAX_PLUGIN_NAME_LENGTH
    ensures |name| + 1 <= MAX_PLUGIN_NAME_LENGTH
  {
    if |version| + |BaseName| + 4 < MAX_PLUGIN_NAME_LENGTH then BaseName + " (" + version + ")" else BaseName
  }

  /** The static `plugin_name` buffer, holding one NUL-terminated string. */
  class NameBuffer {
    const buf: array<char>
    /** The C string the buffer currently holds. */
    ghost var text: string

    ghost predicate Valid()
      reads this, buf
    {
      buf.Length == MAX_PLUGIN_NAME_LENGTH &&
      |text| < buf.Length &&
      IsCString(text) &&
      buf[..|text|] == text &&
      buf[|text|] == NUL
    }

    /** A static array starts out zero-filled, i.e. as the empty string. */
    constructor ()
      ensures Valid() && fresh(buf) && text == []
    {
      buf := new char[MAX_PLUGIN_NAME_LENGTH](_ => NUL);
      text := [];
    }

    /** strlen: scans up to the terminating NUL. */
    method Strlen() returns (n: nat)
      requires Valid()
      ensures n == |text|
    {
      n := 0;
      while buf[n] != NUL
        invariant n <= |text|
        decreases |text| - n
      {
        assert buf[n] == buf[..|text|][n] == text[n];
        n := n + 1;
      }
    }

    /** strcpy: overwrites the buffer with `s` and its terminator. */
    method Strcpy(s: string)
      requires Valid() && IsCString(s) && |s| < buf.Length
      modifies this, buf
      ensures Valid() && text == s
    {
      var i := 0;
      while i < |s|
        invariant 0 <= i <= |s|
        invariant buf[..i] == s[..i]
        invariant text == old(text)
      {
        buf[i] := s[i];
        i := i + 1;
      }
      buf[i] := NUL;
      text := s;
      assert buf[..|text|] == buf[..i];
    }

    /** strcat: finds the terminator, copies `s` over it and terminates again. */
    method Strcat(s: string)
      requires Valid() && IsCString(s) && |text| + |s| < buf.Length
      modifies this, buf
      ensures Valid() && text == old(text) + s
    {
      var n := Strlen();
      var i := 0;
      while i < |s|
        invariant 0 <= i <= |s|
        invariant text == old(text) && n == |text|
        invariant buf[..n + i] == text + s[..i]
      {
        buf[n + i] := s[i];
        i := i + 1;
        assert buf[..n + i] == buf[..n + i - 1] + [s[i - 1]];
        assert s[..i] == s[..i - 1] + [s[i - 1]];
      }
      buf[n + i] := NUL;
      text := text + s;
      assert buf[..|text|] == buf[..n + i];
    }

    /**
     * x265_plugin_name: builds the name for encoder library version
     * `version` and returns the string the buffer then holds.
     */
    method Build(version: string) returns (name: string)
      requires Valid() && IsCString(version)
      modifies this, buf
      ensures Valid() && text == ExpectedName(version) && name == text
    {
      Strcpy(BaseName);
      var baseLength := Strlen();
      if |version| + baseLength + 4 < MAX_PLUGIN_NAME_LENGTH {
        Strcat(" (");
        Strcat(version);
        Strcat(")");
      }
      var n := Strlen();
      name := buf[..n];
    }
  }
}
