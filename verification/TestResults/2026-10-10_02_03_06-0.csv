TestResult.DisplayName,TestResult.Outcome,TestResult.Duration,TestResult.ResourceCount,RandomSeed
JsText.Trim (well-formedness),Failed,00:00:00.4945846,2020811,1
JsText.TrimPieces (correctness),Failed,00:00:00.4673993,2018584,1
JsText.TrimStart (well-formedness),Passed,00:00:00.4435022,887594,1
JsText.TrimEmptyIff (correctness),Passed,00:00:00.3691598,1202403,1
JsText.AllWhitespace (well-formedness),Passed,00:00:00.1269602,11893,1
JsText.TrimEnd (well-formedness),Passed,00:00:00.0529531,131288,1
JsText.TrimPieces (well-formedness),Passed,00:00:00.0370527,48979,1
JsText.TrimIdempotent (correctness),Passed,00:00:00.0342978,41238,1
JsText.Prefix (well-formedness),Passed,00:00:00.0205059,10623,1
JsText.WhitespaceConcat (correctness),Passed,00:00:00.0162452,21054,1
