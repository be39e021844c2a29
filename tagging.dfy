/** How the remote job's captured output is marked before it is mirrored locally: the
    blob is trimmed on the right, and when something is left every one of its lines gets
    the venue tag in front. */
module SlurmTagging {
  import opened PyStrings

  /** The tag written in front of every mirrored line, separating space included. */
  const Tag: string := "[SLURM] "

  /** The tag followed by the line. */
  function Prefixed(line: string): string {
    Tag + line
  }

  /** Every line of `lines` with the tag in front, in order. */
  function PrefixAll(lines: seq<string>): (r: seq<string>)
    ensures |r| == |lines|
    ensures forall k :: 0 <= k < |r| ==> r[k] == Prefixed(lines[k])
  {
    seq(|lines|, k requires 0 <= k < |lines| => Prefixed(lines[k]))
  }

  /** `'\n'.join('[SLURM] ' + line for line in text.split('\n'))`. */
  function Tagged(text: string): string {
    Join(PrefixAll(Split(text, '\n')), '\n')
  }

  /** What the remote job wrote, trimmed on the right, and tagged when anything is left;
      `None` when the trimmed blob is empty, in which case nothing is printed. The lemmas
      TagBlobNoneIff, TagBlobLines and TagBlobRoundTrip say what this promises. */
  function TagBlob(blob: string): Option<string> {
    var trimmed := RStrip(blob);
    if trimmed != [] then Some(Tagged(trimmed)) else None
  }

  datatype Option<T> = None | Some(value: T)

  /** The inverse of tagging: drop the tag from the front of every line that has it. */
  function Untagged(tagged: string): string {
    var lines := Split(tagged, '\n');
    Join(seq(|lines|, k requires 0 <= k < |lines| => Unprefixed(lines[k])), '\n')
  }

  /** The line without the tag in front, or the line itself when it does not start with it. */
  function Unprefixed(line: string): (r: string)
    ensures Tag <= line ==> Tag + r == line
  {
    if Tag <= line then line[|Tag|..] else line
  }

  lemma TagHasNoNewline()
    ensures '\n' !in Tag
  {
  }

  /** Line k of the tagged text is the tag followed by line k of the input: the tagged
      text has exactly as many lines as the input, and every one of them carries the tag. */
  lemma TaggedLines(text: string)
    ensures Split(Tagged(text), '\n') == PrefixAll(Split(text, '\n'))
    ensures |Split(Tagged(text), '\n')| == |Split(text, '\n')|
    ensures forall k :: 0 <= k < |Split(text, '\n')| ==>
              Split(Tagged(text), '\n')[k] == Tag + Split(text, '\n')[k]
  {
    var lines := PrefixAll(Split(text, '\n'));
    TagHasNoNewline();
    forall k | 0 <= k < |lines| ensures '\n' !in lines[k] {
      assert lines[k] == Tag + Split(text, '\n')[k];
    }
    SplitJoin(lines, '\n');
  }

  /** Tagging adds no line break: the tagged text holds as many '\n' as the input. */
  lemma TaggedNewlineCount(text: string)
    ensures Count(Tagged(text), '\n') == Count(text, '\n')
  {
    TaggedLines(text);
    SplitCount(Tagged(text), '\n');
    SplitCount(text, '\n');
  }

  /** Removing the tag from every line and re-joining gives back the untagged text. */
  lemma UntagTagged(text: string)
    ensures Untagged(Tagged(text)) == text
  {
    var original := Split(text, '\n');
    TaggedLines(text);
    var lines := Split(Tagged(text), '\n');
    var stripped := seq(|lines|, k requires 0 <= k < |lines| => Unprefixed(lines[k]));
    forall k | 0 <= k < |original| ensures stripped[k] == original[k] {
      assert lines[k] == Tag + original[k];
      assert lines[k][|Tag|..] == original[k];
    }
    assert stripped == original;
    JoinSplit(text, '\n');
  }

  /** A tagged blob is never empty, has as many lines as the trimmed blob, and every one
      of its lines starts with the tag. */
  lemma TagBlobLines(blob: string)
    requires TagBlob(blob).Some?
    ensures TagBlob(blob).value != []
    ensures |Split(TagBlob(blob).value, '\n')| == |Split(RStrip(blob), '\n')|
    ensures forall line :: line in Split(TagBlob(blob).value, '\n') ==> Tag <= line
  {
    var text := RStrip(blob);
    TaggedLines(text);
    var lines := Split(Tagged(text), '\n');
    assert Tag <= lines[0];
    JoinSplit(Tagged(text), '\n');
    assert lines[0] != [];
  }

  /** A blob made only of whitespace, the empty blob included, produces no tagged output;
      any other blob does. */
  lemma TagBlobNoneIff(blob: string)
    ensures TagBlob(blob).None? <==> forall i :: 0 <= i < |blob| ==> IsSpace(blob[i])
  {
    RStripEmptyIff(blob);
  }

  /** Tagging the blob and then stripping the tags recovers exactly `blob.rstrip()`. */
  lemma TagBlobRoundTrip(blob: string)
    requires TagBlob(blob).Some?
    ensures Untagged(TagBlob(blob).value) == RStrip(blob)
  {
    UntagTagged(RStrip(blob));
  }
}
