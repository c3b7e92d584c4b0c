/** The `TypedText` component: a text typed one character at a time,
    deleted character by character before a new text is typed. Each timer
    callback is one step. */
module TypedText {
  class Typing {
    var displayedText: string
    var currentIndex: nat
    var isTyping: bool
    var isDeleting: bool
    var targetText: string

    /** What is shown is always a prefix of the target typed so far, and
        all of it while not deleting. */
    ghost predicate Valid()
      reads this
    {
      currentIndex <= |targetText|
      && displayedText <= targetText[..currentIndex]
      && (!isDeleting ==> displayedText == targetText[..currentIndex])
    }

    constructor (text: string)
      ensures Valid()
      ensures displayedText == "" && currentIndex == 0 && !isTyping && !isDeleting && targetText == text
    {
      displayedText := "";
      currentIndex := 0;
      isTyping := false;
      isDeleting := false;
      targetText := text;
    }

    /** The initial delay has passed. */
    method StartTyping()
      requires Valid()
      modifies this
      ensures Valid()
      ensures isTyping && displayedText == old(displayedText) && currentIndex == old(currentIndex)
        && isDeleting == old(isDeleting) && targetText == old(targetText)
    {
      isTyping := true;
    }

    /** The effect on a new `text` prop. */
    method OnTextChange(text: string)
      requires Valid()
      modifies this
      ensures Valid()
      ensures text == old(targetText) ==> (displayedText == old(displayedText) && currentIndex == old(currentIndex)
        && isTyping == old(isTyping) && isDeleting == old(isDeleting) && targetText == old(targetText))
      ensures text != old(targetText) && old(displayedText) != "" ==> (!isTyping && isDeleting
        && displayedText == old(displayedText) && currentIndex == old(currentIndex) && targetText == old(targetText))
      ensures text != old(targetText) && old(displayedText) == "" ==> (targetText == text && currentIndex == 0 && isTyping
        && displayedText == "" && isDeleting == old(isDeleting))
    {
      if text != targetText {
        if |displayedText| > 0 {
          isTyping := false;
          isDeleting := true;
        } else {
          targetText := text;
          currentIndex := 0;
          isTyping := true;
        }
      }
    }

    /** The typing timer: the next character of the target is appended. */
    method TypeStep()
      requires Valid()
      modifies this
      ensures Valid()
      ensures isTyping == old(isTyping) && isDeleting == old(isDeleting) && targetText == old(targetText)
      ensures old(isTyping) && !old(isDeleting) && old(currentIndex) < |targetText| ==>
        (displayedText == old(displayedText) + [targetText[old(currentIndex)]] && currentIndex == old(currentIndex) + 1)
      ensures !(old(isTyping) && !old(isDeleting) && old(currentIndex) < |targetText|) ==>
        (displayedText == old(displayedText) && currentIndex == old(currentIndex))
      ensures !isDeleting ==> displayedText == targetText[..currentIndex]
    {
      if !isTyping || isDeleting {
        return;
      }
      if currentIndex < |targetText| {
        assert targetText[..currentIndex + 1] == targetText[..currentIndex] + [targetText[currentIndex]];
        displayedText := displayedText + [targetText[currentIndex]];
        currentIndex := currentIndex + 1;
      }
    }

    /** The deletion effect: one character goes per step, and once the text
        is empty the current prop becomes the target and typing restarts. */
    method DeletionStep(text: string)
      requires Valid()
      modifies this
      ensures Valid()
      ensures !old(isDeleting) ==> (displayedText == old(displayedText) && currentIndex == old(currentIndex)
        && isTyping == old(isTyping) && !isDeleting && targetText == old(targetText))
      ensures old(isDeleting) && old(displayedText) != "" ==> (displayedText == old(displayedText)[..|old(displayedText)| - 1]
        && isDeleting && currentIndex == old(currentIndex) && isTyping == old(isTyping) && targetText == old(targetText))
      ensures old(isDeleting) && old(displayedText) == "" ==> (!isDeleting && targetText == text && currentIndex == 0
        && isTyping && displayedText == "")
    {
      if !isDeleting {
        return;
      }
      if |displayedText| > 0 {
        displayedText := displayedText[..|displayedText| - 1];
      } else {
        isDeleting := false;
        targetText := text;
        currentIndex := 0;
        isTyping := true;
      }
    }
  }
}
