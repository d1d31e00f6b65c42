/**
 * The profile screen (src/UserProfile.tsx): the labels derived from the field names, and the
 * view/edit states with the form copy of the record that the inputs change.
 */
module Profile {
  import opened Wrappers
  import opened Js

  /** The fields the card lists, in order. */
  const DisplayedFields: seq<string> := ["firstName", "lastName", "address"]

  /** `.replace(/([A-Z])/g, ' $1')`: a space in front of every ASCII capital. */
  function SpaceBeforeUpper(s: string): (r: string)
  {
    if s == [] then []
    else if IsUpper(s[0]) then [' ', s[0]] + SpaceBeforeUpper(s[1..])
    else [s[0]] + SpaceBeforeUpper(s[1..])
  }

  /** How many ASCII capitals `s` holds. */
  function CountUpper(s: string): nat {
    if s == [] then 0 else (if IsUpper(s[0]) then 1 else 0) + CountUpper(s[1..])
  }

  /** The characters of `s` other than spaces, in order. */
  function DropSpaces(s: string): string {
    if s == [] then [] else (if s[0] == ' ' then [] else [s[0]]) + DropSpaces(s[1..])
  }

  /** The characters `.` does not match in a regular expression: the line terminators. */
  predicate IsLineTerminator(c: char) {
    c == '\n' || c == '\r' || c == '\U{2028}' || c == '\U{2029}'
  }

  /** `.replace(/^./, str => str.toUpperCase())`: the first character in upper case, the rest as they are. */
  function CapitalizeFirst(s: string): (r: string)
    ensures |r| == |s|
    ensures |s| > 0 ==> r[1..] == s[1..]
    ensures |s| > 0 && !IsLineTerminator(s[0]) ==> r[0] == ToUpperChar(s[0])
    ensures |s| > 0 && IsLineTerminator(s[0]) ==> r == s
  {
    if s == [] || IsLineTerminator(s[0]) then s else [ToUpperChar(s[0])] + s[1..]
  }

  /** The label shown for a field name. */
  function FormatLabel(field: string): (r: string)
    ensures |r| == |field| + CountUpper(field)
  {
    SpaceInsertionLength(field);
    CapitalizeFirst(SpaceBeforeUpper(field))
  }

  /** Inserting the spaces lengthens the text by one for every capital. */
  lemma {:induction false} SpaceInsertionLength(s: string)
    ensures |SpaceBeforeUpper(s)| == |s| + CountUpper(s)
  {
    if s != [] {
      SpaceInsertionLength(s[1..]);
    }
  }

  /** In the spaced text every capital has a space right before it. */
  lemma {:induction false} CapitalsFollowSpaces(s: string)
    ensures forall i :: 0 <= i < |SpaceBeforeUpper(s)| && IsUpper(SpaceBeforeUpper(s)[i]) ==>
              i > 0 && SpaceBeforeUpper(s)[i - 1] == ' '
  {
    if s != [] {
      CapitalsFollowSpaces(s[1..]);
      var rest := SpaceBeforeUpper(s[1..]);
      if IsUpper(s[0]) {
        assert SpaceBeforeUpper(s) == [' ', s[0]] + rest;
        assert forall i :: 2 <= i < |SpaceBeforeUpper(s)| ==> SpaceBeforeUpper(s)[i] == rest[i - 2];
      } else {
        assert SpaceBeforeUpper(s) == [s[0]] + rest;
        assert forall i :: 1 <= i < |SpaceBeforeUpper(s)| ==> SpaceBeforeUpper(s)[i] == rest[i - 1];
      }
    }
  }

  lemma DropSpacesAppend(a: string, b: string)
    ensures DropSpaces(a + b) == DropSpaces(a) + DropSpaces(b)
  {
    if a != [] {
      assert (a + b)[1..] == a[1..] + b;
      DropSpacesAppend(a[1..], b);
    } else {
      assert a + b == b;
    }
  }

  /** A text without spaces is its own space-free form. */
  lemma {:induction false} NoSpacesKept(s: string)
    requires ' ' !in s
    ensures DropSpaces(s) == s
  {
    if s != [] {
      assert s == [s[0]] + s[1..];
      NoSpacesKept(s[1..]);
    }
  }

  /** Removing spaces after the insertion gives what removing them before it gives. */
  lemma {:induction false} InsertedSpacesDropped(s: string)
    ensures DropSpaces(SpaceBeforeUpper(s)) == DropSpaces(s)
  {
    if s != [] {
      var c, t := s[0], s[1..];
      InsertedSpacesDropped(t);
      var prefix := if IsUpper(c) then [' ', c] else [c];
      assert SpaceBeforeUpper(s) == prefix + SpaceBeforeUpper(t);
      DropSpacesAppend(prefix, SpaceBeforeUpper(t));
      assert [' ', c][1..] == [c];
      assert DropSpaces(prefix) == DropSpaces([c]);
    }
  }

  /** Only spaces are inserted: removing the spaces again gives back a field name that had none. */
  lemma SpaceInsertionRoundTrip(s: string)
    requires ' ' !in s
    ensures DropSpaces(SpaceBeforeUpper(s)) == s
  {
    InsertedSpacesDropped(s);
    NoSpacesKept(s);
  }

  /** A piece without capitals is left as it is. */
  lemma {:induction false} NoCapitals(s: string)
    requires forall i :: 0 <= i < |s| ==> !IsUpper(s[i])
    ensures SpaceBeforeUpper(s) == s
  {
    if s != [] {
      NoCapitals(s[1..]);
      assert s == [s[0]] + s[1..];
    }
  }

  /** The spaces are inserted piece by piece. */
  lemma {:induction false} SpaceBeforeUpperAppend(a: string, b: string)
    ensures SpaceBeforeUpper(a + b) == SpaceBeforeUpper(a) + SpaceBeforeUpper(b)
  {
    if a == [] {
      assert a + b == b;
    } else {
      assert (a + b)[0] == a[0] && (a + b)[1..] == a[1..] + b;
      SpaceBeforeUpperAppend(a[1..], b);
    }
  }

  /** A capital gets its space, and the rest is spaced on its own. */
  lemma CapitalSpaced(cap: char, rest: string)
    requires IsUpper(cap)
    ensures SpaceBeforeUpper([cap] + rest) == [' ', cap] + SpaceBeforeUpper(rest)
  {
    assert ([cap] + rest)[0] == cap && ([cap] + rest)[1..] == rest;
  }

  lemma TwoWordSpaced(first: string, cap: char, rest: string)
    requires IsUpper(cap)
    requires forall i :: 0 <= i < |first| ==> !IsUpper(first[i])
    requires forall i :: 0 <= i < |rest| ==> !IsUpper(rest[i])
    ensures SpaceBeforeUpper(first + ([cap] + rest)) == first + ([' ', cap] + rest)
  {
    SpaceBeforeUpperAppend(first, [cap] + rest);
    NoCapitals(first);
    CapitalSpaced(cap, rest);
    NoCapitals(rest);
  }

  /** A camel-case name of two words: the words apart, the first one capitalised. */
  lemma TwoWordLabel(first: string, cap: char, rest: string)
    requires |first| > 0 && !IsLineTerminator(first[0]) && IsUpper(cap)
    requires forall i :: 0 <= i < |first| ==> !IsUpper(first[i])
    requires forall i :: 0 <= i < |rest| ==> !IsUpper(rest[i])
    ensures FormatLabel(first + ([cap] + rest)) == [ToUpperChar(first[0])] + (first[1..] + ([' ', cap] + rest))
  {
    TwoWordSpaced(first, cap, rest);
    var spaced := first + ([' ', cap] + rest);
    assert spaced[0] == first[0];
    assert spaced[1..] == first[1..] + ([' ', cap] + rest);
  }

  lemma FirstNameLabel()
    ensures FormatLabel("firstName") == "First Name"
  {
    assert "firstName" == "first" + (['N'] + "ame");
    TwoWordLabel("first", 'N', "ame");
    assert ToUpperChar('f') == 'F';
    assert [ToUpperChar('f')] + ("irst" + ([' ', 'N'] + "ame")) == "First Name";
  }

  lemma LastNameLabel()
    ensures FormatLabel("lastName") == "Last Name"
  {
    assert "lastName" == "last" + (['N'] + "ame");
    TwoWordLabel("last", 'N', "ame");
    assert ToUpperChar('l') == 'L';
    assert [ToUpperChar('l')] + ("ast" + ([' ', 'N'] + "ame")) == "Last Name";
  }

  lemma AddressLabel()
    ensures FormatLabel("address") == "Address"
  {
    NoCapitals("address");
    assert ToUpperChar('a') == 'A';
    assert [ToUpperChar('a')] + "ddress" == "Address";
  }

  /** The card's labels, in order: the three fields and nothing else. */
  lemma DisplayedLabels()
    ensures |DisplayedFields| == 3
    ensures FormatLabel(DisplayedFields[0]) == "First Name"
    ensures FormatLabel(DisplayedFields[1]) == "Last Name"
    ensures FormatLabel(DisplayedFields[2]) == "Address"
  {
    FirstNameLabel();
    LastNameLabel();
    AddressLabel();
  }

  class ProfileView {
    /** The fetched record; `None` while the profile is loading (or when the fetch failed). */
    var user: Option<Record>
    var isEditing: bool
    var formData: Record

    constructor ()
      ensures user == None && !isEditing && formData == map[]
    {
      user := None;
      isEditing := false;
      formData := map[];
    }

    /** The profile arrived: both the shown record and the form copy take it. */
    method Loaded(data: Record)
      modifies this
      ensures user == Some(data) && formData == data && isEditing == old(isEditing)
    {
      user := Some(data);
      formData := data;
    }

    /** An input's change event: only the named field of the form copy changes. */
    method HandleChange(name: string, value: string)
      modifies this
      ensures formData == old(formData)[name := Str(value)]
      ensures forall f :: f != name ==> Get(formData, f) == Get(old(formData), f)
      ensures user == old(user) && isEditing == old(isEditing)
    {
      formData := formData[name := Str(value)];
    }

    /** "Edit Profile". */
    method StartEditing()
      modifies this
      ensures isEditing && user == old(user) && formData == old(formData)
    {
      isEditing := true;
    }

    /**
     * "Cancel": back to view mode. The form copy keeps the unsaved edits, but view mode shows the
     * record itself, so the screen reads as before the edits.
     */
    method CancelEditing()
      modifies this
      ensures !isEditing && user == old(user) && formData == old(formData)
      ensures user.Some? ==> forall f :: Shown(f) == Some(Get(user.value, f))
    {
      isEditing := false;
    }

    /**
     * "Save" once the update has been answered: the form copy is what was sent; an answer with a record
     * replaces the shown record and leaves edit mode, a failure changes nothing.
     */
    method HandleSave(answer: Option<Record>) returns (sent: Record)
      modifies this
      ensures sent == old(formData)
      ensures answer.Some? ==> user == Some(answer.value) && !isEditing
      ensures answer.None? ==> user == old(user) && isEditing == old(isEditing)
      ensures formData == old(formData)
    {
      sent := formData;
      if answer.Some? {
        user := Some(answer.value);
        isEditing := false;
      }
    }

    /**
     * What a field shows: nothing while loading; in edit mode the input's value
     * (`formData[field] || ''`); in view mode `user[field]`.
     */
    function Shown(field: string): (v: Option<Value>)
      reads this
      ensures v.None? <==> user.None?
      ensures user.Some? && !isEditing ==> v == Some(Get(user.value, field))
      ensures user.Some? && isEditing && Truthy(Get(formData, field)) ==> v == Some(Get(formData, field))
      ensures user.Some? && isEditing && !Truthy(Get(formData, field)) ==> v == Some(Str(""))
    {
      if user.None? then None
      else if !isEditing then Some(Get(user.value, field))
      else if Truthy(Get(formData, field)) then Some(Get(formData, field))
      else Some(Str(""))
    }
  }
}
