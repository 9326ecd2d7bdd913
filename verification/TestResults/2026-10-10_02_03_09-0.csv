TestResult.DisplayName,TestResult.Outcome,TestResult.Duration,TestResult.ResourceCount,RandomSeed
JsText.TrimPieces (correctness),Failed,00:00:01.0973630,2018584,2
JsText.Trim (well-formedness),Passed,00:00:00.3567769,1419484,2
JsText.TrimEmptyIff (correctness),Passed,00:00:00.2723011,1177630,2
JsText.TrimStart (well-formedness),Passed,00:00:00.2025673,412197,2
JsText.AllWhitespace (well-formedness),Passed,00:00:00.1156653,11896,2
JsText.TrimEnd (well-formedness),Passed,00:00:00.0519743,121447,2
JsText.TrimIdempotent (correctness),Passed,00:00:00.0283910,41288,2
JsText.TrimPieces (well-formedness),Passed,00:00:00.0246897,49466,2
JsText.WhitespaceConcat (correctness),Passed,00:00:00.0181503,21053,2
JsText.Prefix (well-formedness),Passed,00:00:00.0104051,10489,2
