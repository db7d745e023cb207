/** `Util.isClassNameBlacklisted`: the classes the agent never rewrites,
    because the trace sink or the JVM's own start-up depends on them. */
module Util {
  import opened Common

  /** The blacklist, in the order the source lists it. */
  const BlackList: seq<string> := [
    "java/lang/Object",
    "java/lang/Class",
    "java/lang/Class$",
    "java/lang/ClassLoader",
    "java/lang/Thread",
    "java/lang/invoke",
    "java/security/AccessControlContext",
    "NativeInterface",
    "java/util/AbstractCollection.class",
    "java/util/AbstractList.class",
    "java/util/HashMap.class",
    "java/util/Vector.class",
    "java/util/LinkedList$ListItr",
    "java/lang/Shutdown",
    "java/lang/System",
    "java/lang/String",
    "java/lang/Float",
    "java/lang/ref",
    "sun/nio/cs",
    "java/io/File",
    "java/io/FileOutputStream",
    "java/io/PrintStream",
    "java/util/Hashtable",
    "sun/util/PreHashedMap",
    "sun/launcher/"
  ]

  /** A class name is blacklisted when some entry occurs in it. */
  predicate IsBlacklisted(name: string) {
    exists k | 0 <= k < |BlackList| :: Contains(name, BlackList[k])
  }

  /** The for-each over the blacklist, returning at the first entry that
      occurs in `name`. */
  method IsClassNameBlacklisted(name: string) returns (b: bool)
    ensures b <==> IsBlacklisted(name)
  {
    var k := 0;
    while k < |BlackList|
      invariant 0 <= k <= |BlackList|
      invariant forall j | 0 <= j < k :: !Contains(name, BlackList[j])
    {
      if Contains(name, BlackList[k]) {
        return true;
      }
      k := k + 1;
    }
    return false;
  }

  /** A name that contains a blacklisted name is blacklisted. */
  lemma BlacklistMonotone(name: string, longer: string)
    requires IsBlacklisted(name) && Contains(longer, name)
    ensures IsBlacklisted(longer)
  {
    var k :| 0 <= k < |BlackList| && Contains(name, BlackList[k]);
    ContainsTransitive(longer, name, BlackList[k]);
  }

  /** The trace sink is never rewritten: every name mentioning
      `NativeInterface` is blacklisted. */
  lemma NativeInterfaceBlacklisted(name: string)
    requires Contains(name, "NativeInterface")
    ensures IsBlacklisted(name)
  {
    assert BlackList[7] == "NativeInterface";
  }

  /** Entries act within longer names: `java/lang/StringBuilder` is
      blacklisted through `java/lang/String`. */
  lemma StringBuilderBlacklisted()
    ensures IsBlacklisted("java/lang/StringBuilder")
  {
    assert OccursAt("java/lang/StringBuilder", BlackList[15], 0);
  }

  /** The four `.class` entries are matched only by names that contain
      `.class` literally. */
  lemma DotClassEntries(name: string, k: nat)
    requires 8 <= k <= 11 && Contains(name, BlackList[k])
    ensures Contains(name, ".class")
  {
    var e := BlackList[k];
    assert OccursAt(e, ".class", |e| - 6);
    ContainsTransitive(name, e, ".class");
  }

  /** An entry holding a character the name lacks does not occur in it. */
  lemma MissingChar(name: string, chars: set<char>, e: string, j: nat)
    requires forall i | 0 <= i < |name| :: name[i] in chars
    requires j < |e| && e[j] !in chars
    ensures !Contains(name, e)
  {
    if Contains(name, e) {
      ContainsChar(name, e, e[j]);
    }
  }

  /** The `.class` entries only match names that contain `.class`
      literally, so `java/util/HashMap` itself is not blacklisted: every
      other entry holds a character that name lacks, or is longer than it. */
  lemma HashMapNotBlacklisted()
    ensures !IsBlacklisted("java/util/HashMap")
  {
    var name := "java/util/HashMap";
    var chars := {'j', 'a', 'v', '/', 'u', 't', 'i', 'l', 'H', 's', 'h', 'M', 'p'};
    assert forall i | 0 <= i < |name| :: name[i] in chars;
    forall k | 0 <= k < |BlackList|
      ensures !Contains(name, BlackList[k])
    {
      var e := BlackList[k];
      if k == 6 {
        MissingChar(name, chars, e, 6);         // 'e' of "security"
      } else if k == 7 {
        MissingChar(name, chars, e, 0);         // 'N'
      } else if 19 <= k <= 21 {
        MissingChar(name, chars, e, 6);         // 'o' of "/io/"
      } else if k == 22 {
        MissingChar(name, chars, e, 16);        // 'b' of "Hashtable"
      } else if k == 18 || k == 23 || k == 24 {
        MissingChar(name, chars, e, 2);         // 'n' of "sun"
      } else if k <= 5 || 13 <= k <= 17 {
        MissingChar(name, chars, e, 7);         // 'n' of "lang"
      } else {
        assert |e| > |name|;             // the four ".class" entries and "LinkedList$ListItr"
      }
    }
  }
}
