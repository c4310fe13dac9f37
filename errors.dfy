/** Recognising the error the Redash client gives when the server answers
    with an HTML page, and the advice printed for it
    (`internal/redash/errors.go`). */
module RedashErrors {

  import opened Wrappers
  import opened Text

  /** The phrase that marks an HTML answer. */
  const HTMLInsteadOfJSON := "HTML instead of JSON"

  /** The error `ListQueries` and `GetQuery` return when the body they
      cannot decode starts with `<`. */
  const HTMLBodyError := "received " + HTMLInsteadOfJSON + ". This may indicate authentication issues"
                         + " or an incorrect URL. Please check your API key and Redash URL"

  /** `IsHTMLResponseError`: an error (None stands for Go's nil) whose text
      contains the phrase. */
  predicate IsHTMLResponseError(err: Option<string>) {
    err.Some? && Contains(err.value, HTMLInsteadOfJSON)
  }

  /** No error is never an HTML error; an error is one exactly when its
      text contains the phrase, wherever it stands. */
  lemma HTMLResponseErrorCases(err: Option<string>, pre: string, post: string)
    ensures !IsHTMLResponseError(None)
    ensures IsHTMLResponseError(Some(pre + HTMLInsteadOfJSON + post))
    ensures IsHTMLResponseError(err) ==>
      exists i: nat :: OccursAt(err.value, HTMLInsteadOfJSON, i)
  {
    if IsHTMLResponseError(err) {
      ContainsWhere(err.value, HTMLInsteadOfJSON);
    }
    var s := pre + HTMLInsteadOfJSON + post;
    assert s[|pre|..|pre| + |HTMLInsteadOfJSON|] == HTMLInsteadOfJSON;
    ContainsAt(s, HTMLInsteadOfJSON, |pre|);
  }

  /** The client's own HTML-body error is recognised. */
  lemma HTMLBodyErrorRecognised()
    ensures IsHTMLResponseError(Some(HTMLBodyError))
  {
    var post := ". This may indicate authentication issues"
                + " or an incorrect URL. Please check your API key and Redash URL";
    assert HTMLBodyError == "received " + HTMLInsteadOfJSON + post;
    HTMLResponseErrorCases(Some(HTMLBodyError), "received ", post);
  }

  /** The lines `PrintCommonErrorSuggestions` prints: the error and four
      things to check when the error is an HTML error, nothing otherwise. */
  function CommonErrorSuggestions(err: Option<string>): (lines: seq<string>)
    ensures lines != [] <==> IsHTMLResponseError(err)
    ensures lines != [] ==> |lines| == 7 && lines[0] == "エラー: " + err.value && lines[1] == ""
  {
    if IsHTMLResponseError(err) then
      [ "エラー: " + err.value,
        "",
        "考えられる解決策:",
        "1. APIキーが正しいか確認してください。",
        "2. RedashのURLが正しいか確認してください（末尾にスラッシュがあるか、APIパスが含まれていないか）。",
        "3. RedashのURLにアクセス可能か確認してください。",
        "4. 設定ファイル（~/.redrip/config.conf）の内容を確認してください。" ]
    else []
  }

  /** An HTML answer from the server is always followed by the advice. */
  lemma HTMLBodyErrorGetsAdvice()
    ensures CommonErrorSuggestions(Some(HTMLBodyError)) != []
    ensures CommonErrorSuggestions(Some(HTMLBodyError))[0] == "エラー: " + HTMLBodyError
  {
    HTMLBodyErrorRecognised();
  }
}
