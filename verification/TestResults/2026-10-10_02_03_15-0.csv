TestResult.DisplayName,TestResult.Outcome,TestResult.Duration,TestResult.ResourceCount,RandomSeed
JsText.Trim (well-formedness),Failed,00:00:00.6463190,2020812,4
JsText.TrimEmptyIff (correctness),Passed,00:00:00.2083328,1115201,4
JsText.TrimPieces (correctness),Passed,00:00:00.1975327,573945,4
JsText.TrimStart (well-formedness),Passed,00:00:00.1187307,88599,4
JsText.AllWhitespace (well-formedness),Passed,00:00:00.1000133,11896,4
JsText.TrimEnd (well-formedness),Passed,00:00:00.0506619,125315,4
JsText.TrimIdempotent (correctness),Passed,00:00:00.0360517,41359,4
JsText.TrimPieces (well-formedness),Passed,00:00:00.0296353,46076,4
JsText.WhitespaceConcat (correctness),Passed,00:00:00.0282691,21056,4
JsText.Prefix (well-formedness),Passed,00:00:00.0172610,10513,4
